/** The conversation engine: what the chat function does with one
    parsed request (netlify/functions/chat.js:45-142). The request's
    fields arrive already trimmed; the regular-expression test is a
    `Matcher` parameter, except for the `confirm` pattern, which is exact
    equality with the send token; `Math.random` is the `roll` parameter. */
module Engine {
  import opened Wrappers
  import opened StepMaps
  import opened Flows
  import Decimal

  const StartStep := "_start"
  /** The context slot that holds the hand-off text once it is fixed. */
  const SendTextKey := "__sendText"
  const DefaultPraise := "ありがとうございます。"
  const FallbackPrompt := "ここまで一緒に整理できました。"
  const NoSuchHint := "このステップには、その番号のヒントは登録されていません。"
  const HintLead := "🔍 ヒント"
  const HintSeparator := "："
  const HintLabel := "ヒント"
  const RetryLead := "💡 "
  const RetryAdvice := "\n\n必要であれば、ヒントボタンを押してみてください。"
  const PromptSeparator := "\n\n"

  /** `RETRY_MSGS`: the encouraging phrases a rejected answer draws from. */
  const RetryMessages := [
    "少しだけずれているみたいです。でも大丈夫ですよ、もう一度一緒に考えてみましょう。",
    "惜しいです。視点は悪くありません。もう一度資料を見直してみませんか？",
    "うーん…この答えだと辻褄が合わないかもしれません。もう一度ゆっくり考えてみましょう。",
    "方向性は良いと思います。もう少しだけ条件を絞ってみましょうか。"
  ]

  /** `new RegExp(pattern).test(answer)`, left abstract. */
  type Matcher = (string, string) -> bool

  /** A parsed request body. */
  datatype Request = Request(keyword: string, step: string, answer: string, context: Context, hintIndex: Option<int>)

  datatype HintButton = HintButton(id: string, caption: string)

  /** A response body: the 404 `{ok:false, error:'not_found'}`, or an
      `ok:true` reply whose optional fields may be absent or null. */
  datatype Response =
    | NotFound
    | Reply(role: string, prompt: string, next: Option<string>, context: Option<Context>,
            sendText: Option<string>, hints: Option<seq<HintButton>>, retry: bool)

  function Status(r: Response): int {
    if r.NotFound? then 404 else 200
  }

  /** The answer test of a pattern. */
  function Test(matches: Matcher, pattern: string, answer: string): bool {
    if pattern == ConfirmPattern then answer == ConfirmToken else matches(pattern, answer)
  }

  /** A node without a pattern accepts every answer. */
  predicate Accepts(matches: Matcher, node: Node, answer: string) {
    !Present(node.pattern) || Test(matches, node.pattern.value, answer)
  }

  /** `map[step] || map[first]`: an unknown step key falls back to the first step. */
  function Resolve(m: StepMap, step: string): Node
    requires ValidMap(m)
  {
    if step in m.nodes then m.nodes[step] else m.nodes[m.order[0]]
  }

  /** The text of hint `i`: its ordinal counted from 1, then the hint. */
  function HintText(i: nat, hint: string): (t: string)
    ensures |t| == |HintLead| + |Decimal.NatToString(i + 1)| + |HintSeparator| + |hint|
    ensures t[|HintLead|..|HintLead| + |Decimal.NatToString(i + 1)|] == Decimal.NatToString(i + 1)
    ensures |t| >= |hint| && t[|t| - |hint|..] == hint
  {
    HintLead + Decimal.NatToString(i + 1) + HintSeparator + hint
  }

  /** A hint is shown when its index is in range and its text is not empty. */
  predicate HasHint(hints: seq<string>, i: int) {
    0 <= i < |hints| && hints[i] != ""
  }

  /** One button per hint, with id `i` and label `ヒント(i+1)`; the ids
      are distinct. */
  function HintButtons(hints: seq<string>): (b: seq<HintButton>)
    ensures |b| == |hints|
    ensures forall i :: 0 <= i < |b| ==> b[i] == HintButton(Decimal.NatToString(i), HintLabel + Decimal.NatToString(i + 1))
    ensures forall i, j :: 0 <= i < j < |b| ==> b[i].id != b[j].id
  {
    var b := seq(|hints|, i requires 0 <= i < |hints| => HintButton(Decimal.NatToString(i), HintLabel + Decimal.NatToString(i + 1)));
    forall i, j | 0 <= i < j < |b|
      ensures b[i].id != b[j].id
    {
      Decimal.NatToStringInjective(i, j);
    }
    b
  }

  function RetryPrompt(roll: nat): string
    requires roll < |RetryMessages|
  {
    RetryLead + RetryMessages[roll] + RetryAdvice
  }

  /** The key an accepted answer moves to: `summary` after the last
      step, otherwise the successor-table entry, if any. */
  function NextKey(m: StepMap, key: string): Option<string> {
    if key == LastKey(m.order) then Some(SummaryKey)
    else if key in m.next then Some(m.next[key])
    else None
  }

  /** The context after an accepted answer is captured. */
  function Captured(node: Node, answer: string, context: Context): Context {
    if Present(node.capture) then context[node.capture.value := answer] else context
  }

  /** `context.__sendText || null`. */
  function SendTextIn(context: Context): Option<string> {
    if SendTextKey in context && context[SendTextKey] != "" then Some(context[SendTextKey]) else None
  }

  function PraiseOf(node: Node): string {
    if Present(node.praise) then node.praise.value else DefaultPraise
  }

  function BuilderOf(flow: Flow): SummaryBuilder {
    flow.summaryBuilder.GetOr(DefaultSummary)
  }

  /** The reply to an accepted answer. */
  function Accepted(flow: Flow, node: Node, answer: string, context: Context): Response
    requires ValidMap(flow.stepMap)
  {
    var m := flow.stepMap;
    var ctx := Captured(node, answer, context);
    var nextKey := NextKey(m, node.key);
    var nextNode := if nextKey.Some? && nextKey.value in m.nodes then Some(m.nodes[nextKey.value]) else None;
    var role := if nextNode.Some? && nextNode.value.role != "" then nextNode.value.role else Role;
    if nextKey == Some(SummaryKey) then
      var promptText := BuilderOf(flow)(ctx, answer);
      var finalPrompt := PraiseOf(node) + PromptSeparator + promptText;
      if Present(flow.shortAnswer) then
        Reply(role, finalPrompt, nextKey, Some(ctx[SendTextKey := flow.shortAnswer.value]), flow.shortAnswer, None, false)
      else
        Reply(role, finalPrompt, nextKey, Some(ctx), SendTextIn(ctx), None, false)
    else
      var promptText := if nextNode.Some? then nextNode.value.prompt else FallbackPrompt;
      Reply(role, PraiseOf(node) + PromptSeparator + promptText, nextKey, Some(ctx), SendTextIn(ctx), None, false)
  }

  /** The reply to one request for a registered flow. In priority order:
      a hint request, a prompt-only request (empty answer), a rejected
      answer, an accepted answer. */
  function Evaluate(flow: Flow, step: string, answer: string, context: Context, hintIndex: Option<int>,
                    matches: Matcher, roll: nat): (r: Response)
    requires ValidMap(flow.stepMap)
    requires roll < |RetryMessages|
    ensures r.Reply?
    // A hint request is answered from the current node's hints and changes nothing.
    ensures var node := Resolve(flow.stepMap, step);
      hintIndex.Some? ==>
        && r.next == Some(node.key) && r.context == Some(context) && r.sendText == None
        && !r.retry && r.hints == None
        && (HasHint(node.hints, hintIndex.value) ==> r.prompt == HintText(hintIndex.value, node.hints[hintIndex.value]))
        && (!HasHint(node.hints, hintIndex.value) ==> r.prompt == NoSuchHint)
    // An empty answer only shows the prompt of the current node (of the first one from `_start`).
    ensures var shown := if step == StartStep then flow.stepMap.nodes[flow.stepMap.order[0]] else Resolve(flow.stepMap, step);
      hintIndex.None? && answer == "" ==>
        && r.prompt == shown.prompt && r.next == Some(shown.key)
        && r.context == None && r.sendText == None && !r.retry && r.hints == None
    // A rejected answer stays where it is, keeps the context and offers the hints.
    ensures var node := Resolve(flow.stepMap, step);
      hintIndex.None? && answer != "" && !Accepts(matches, node, answer) ==>
        && r.retry && r.next == Some(node.key) && r.context == Some(context) && r.sendText == None
        && r.hints == Some(HintButtons(node.hints))
        && r.prompt == RetryLead + RetryMessages[roll] + RetryAdvice
    // An accepted answer is captured, and the reply moves on to the successor.
    ensures var node := Resolve(flow.stepMap, step);
      hintIndex.None? && answer != "" && Accepts(matches, node, answer) ==>
        && !r.retry && r.hints == None
        && r.next == NextKey(flow.stepMap, node.key)
        && r.context.Some?
        && (Present(node.capture) && node.capture.value != SendTextKey ==>
              node.capture.value in r.context.value && r.context.value[node.capture.value] == answer)
        && (forall k :: k != SendTextKey && (!Present(node.capture) || k != node.capture.value) ==>
              (k in r.context.value <==> k in context) && (k in context ==> r.context.value[k] == context[k]))
    // Reaching `summary`: the summary builder's text after the praise, and the short answer handed off.
    ensures var node := Resolve(flow.stepMap, step);
      hintIndex.None? && answer != "" && Accepts(matches, node, answer) && r.next == Some(SummaryKey) ==>
        && r.prompt == PraiseOf(node) + PromptSeparator + BuilderOf(flow)(Captured(node, answer, context), answer)
        && (Present(flow.shortAnswer) ==>
              r.sendText == flow.shortAnswer && SendTextKey in r.context.value && r.context.value[SendTextKey] == flow.shortAnswer.value)
        && (!Present(flow.shortAnswer) ==> r.context == Some(Captured(node, answer, context)) && r.sendText == SendTextIn(r.context.value))
    // Moving anywhere else: the next node's prompt after the praise, and any hand-off text carried forward.
    ensures var node := Resolve(flow.stepMap, step);
      hintIndex.None? && answer != "" && Accepts(matches, node, answer) && r.next != Some(SummaryKey) ==>
        && r.context == Some(Captured(node, answer, context))
        && r.sendText == SendTextIn(r.context.value)
        && (r.next.Some? && r.next.value in flow.stepMap.nodes ==>
              r.prompt == PraiseOf(node) + PromptSeparator + flow.stepMap.nodes[r.next.value].prompt)
        && (r.next.None? ==> r.prompt == PraiseOf(node) + PromptSeparator + FallbackPrompt)
  {
    var m := flow.stepMap;
    var node := Resolve(m, step);
    if hintIndex.Some? then
      var text := if HasHint(node.hints, hintIndex.value) then HintText(hintIndex.value, node.hints[hintIndex.value]) else NoSuchHint;
      Reply(if node.role != "" then node.role else Role, text, Some(node.key), Some(context), None, None, false)
    else if answer == "" then
      var n := if step == StartStep then m.nodes[m.order[0]] else node;
      Reply(n.role, n.prompt, Some(n.key), None, None, None, false)
    else if !Accepts(matches, node, answer) then
      Reply(node.role, RetryPrompt(roll), Some(node.key), Some(context), None, Some(HintButtons(node.hints)), true)
    else
      Accepted(flow, node, answer, context)
  }

  /** The handler: an unknown keyword is a 404 `not_found` and nothing
      is evaluated; a registered flow is answered by `Answer`. */
  method Handle(req: Request, matches: Matcher, roll: nat) returns (r: Response)
    requires roll < |RetryMessages|
    ensures Lookup(req.keyword).None? ==> r == NotFound && Status(r) == 404
    ensures Lookup(req.keyword).Some? ==>
      && ValidMap(Lookup(req.keyword).value.stepMap)
      && r == Evaluate(Lookup(req.keyword).value, req.step, req.answer, req.context, req.hintIndex, matches, roll)
      && Status(r) == 200
  {
    var found := Lookup(req.keyword);
    if found.None? {
      return NotFound;
    }
    RegisteredFlowValid(req.keyword);
    r := Answer(found.value, req.step, req.answer, req.context, req.hintIndex, matches, roll);
  }

  /** The handler body as the source writes it: resolve the node, and
      then, in the same priority order as `Evaluate`, answer a hint
      request, a prompt-only request, a rejected answer, or capture the
      answer and build the reply step by step. */
  method Answer(flow: Flow, step: string, answer: string, context: Context, hintIndex: Option<int>,
                matches: Matcher, roll: nat) returns (r: Response)
    requires ValidMap(flow.stepMap)
    requires roll < |RetryMessages|
    ensures r == Evaluate(flow, step, answer, context, hintIndex, matches, roll)
  {
    var m := flow.stepMap;
    var first := m.order[0];
    var node := if step in m.nodes then m.nodes[step] else m.nodes[first];

    if hintIndex.Some? {
      var i := hintIndex.value;
      var text := if HasHint(node.hints, i) then HintText(i, node.hints[i]) else NoSuchHint;
      return Reply(if node.role != "" then node.role else Role, text, Some(node.key), Some(context), None, None, false);
    }

    if answer == "" {
      var n := if step == StartStep then m.nodes[first] else node;
      return Reply(n.role, n.prompt, Some(n.key), None, None, None, false);
    }

    var ok := if Present(node.pattern) then Test(matches, node.pattern.value, answer) else true;
    if !ok {
      return Reply(node.role, RetryPrompt(roll), Some(node.key), Some(context), None, Some(HintButtons(node.hints)), true);
    }

    var ctx := context;
    if Present(node.capture) {
      ctx := ctx[node.capture.value := answer];
    }
    var sendText := SendTextIn(ctx);
    var isLast := node.key == LastKey(m.order);
    var nextKey := if isLast then Some(SummaryKey) else if node.key in m.next then Some(m.next[node.key]) else None;
    var next := if nextKey.Some? && nextKey.value in m.nodes then Some(m.nodes[nextKey.value]) else None;
    var promptText := if next.Some? then next.value.prompt else FallbackPrompt;
    if nextKey == Some(SummaryKey) {
      var builder := BuilderOf(flow);
      promptText := builder(ctx, answer);
      if Present(flow.shortAnswer) {
        sendText := flow.shortAnswer;
        ctx := ctx[SendTextKey := flow.shortAnswer.value];
      }
    }
    var praiseText := PraiseOf(node);
    var finalPrompt := praiseText + PromptSeparator + promptText;
    var role := if next.Some? && next.value.role != "" then next.value.role else Role;
    r := Reply(role, finalPrompt, nextKey, Some(ctx), sendText, None, false);
  }

  // ----- The successor chain of a built map -----

  /** The keys along the chain of a map built from `n` steps: `s1 .. sn`,
      then `summary`, `confirm` and `end`. */
  function Chain(n: nat): (c: seq<string>)
    ensures |c| == n + 3
    ensures forall i :: 0 <= i < n ==> c[i] == StepKey(i + 1)
    ensures c[n] == SummaryKey && c[n + 1] == ConfirmKey && c[n + 2] == EndKey
  {
    OrderUpToIsKeys(n);
    OrderUpTo(n) + [SummaryKey, ConfirmKey, EndKey]
  }

  /** Every key along `chain` is a node whose own key it is, an accepted
      answer at each key moves to the next one, and the last key has no
      successor. */
  predicate ChainShaped(m: StepMap, chain: seq<string>) {
    && |chain| > 0
    && (forall p :: 0 <= p < |chain| ==> chain[p] in m.nodes && m.nodes[chain[p]].key == chain[p] && chain[p] != "")
    && (forall p {:trigger NextKey(m, chain[p])} :: 0 <= p < |chain| - 1 ==> NextKey(m, chain[p]) == Some(chain[p + 1]))
    && NextKey(m, chain[|chain| - 1]) == None
  }

  /** Every key along the chain of a built map is a node of its own key. */
  lemma BuildChainNodes(steps: seq<StepSpec>, labels: TailLabels)
    ensures var m := Build(steps, labels); var c := Chain(|steps|);
      forall p :: 0 <= p < |c| ==> c[p] in m.nodes && m.nodes[c[p]].key == c[p] && c[p] != ""
  {
    var c := Chain(|steps|);
    BuildNodes(steps, labels);
    forall p | 0 <= p < |steps|
      ensures c[p] != ""
    {
      StepKeyNotTail(p + 1);
    }
  }

  /** An accepted answer at step `i` of a built map moves to step `i + 1`,
      or to `summary` after the last step. */
  lemma BuildStepNext(steps: seq<StepSpec>, labels: TailLabels, i: nat)
    requires 1 <= i <= |steps|
    ensures NextKey(Build(steps, labels), StepKey(i)) == Some(if i < |steps| then StepKey(i + 1) else SummaryKey)
  {
    BuildOrder(steps, labels);
    BuildLinks(steps, labels);
    assert LastKey(Build(steps, labels).order) == StepKey(|steps|);
    StepKeyInjective(i, |steps|);
  }

  /** After the steps of a built map: `summary -> confirm -> end`, and
      `end` links nowhere. */
  lemma BuildTailNext(steps: seq<StepSpec>, labels: TailLabels)
    requires |steps| > 0
    ensures var m := Build(steps, labels);
      NextKey(m, SummaryKey) == Some(ConfirmKey) && NextKey(m, ConfirmKey) == Some(EndKey) && NextKey(m, EndKey) == None
  {
    BuildOrder(steps, labels);
    BuildLinks(steps, labels);
    BuildLinksDomain(steps, labels);
    assert LastKey(Build(steps, labels).order) == StepKey(|steps|);
    StepKeyNotTail(|steps|);
  }

  /** Links from each step to the next, from the last step to `summary`,
      and on to `confirm` and `end` make up the links of the chain. */
  lemma ChainLinksOf(m: StepMap, n: nat)
    requires n > 0
    requires forall i: nat :: 1 <= i <= n ==> NextKey(m, StepKey(i)) == Some(if i < n then StepKey(i + 1) else SummaryKey)
    requires NextKey(m, SummaryKey) == Some(ConfirmKey) && NextKey(m, ConfirmKey) == Some(EndKey) && NextKey(m, EndKey) == None
    ensures var c := Chain(n);
      && (forall p {:trigger NextKey(m, c[p])} :: 0 <= p < |c| - 1 ==> NextKey(m, c[p]) == Some(c[p + 1]))
      && NextKey(m, c[|c| - 1]) == None
  {
    var c := Chain(n);
    forall p | 0 <= p < n
      ensures NextKey(m, c[p]) == Some(c[p + 1])
    {
      var i: nat := p + 1;
      assert NextKey(m, StepKey(i)) == Some(if i < n then StepKey(i + 1) else SummaryKey);
      assert c[p] == StepKey(i);
    }
  }

  /** Along the chain of a built map, each key links to the next one,
      and `end` links nowhere. */
  lemma BuildChainLinks(steps: seq<StepSpec>, labels: TailLabels)
    requires |steps| > 0
    ensures var m := Build(steps, labels); var c := Chain(|steps|);
      && (forall p {:trigger NextKey(m, c[p])} :: 0 <= p < |c| - 1 ==> NextKey(m, c[p]) == Some(c[p + 1]))
      && NextKey(m, c[|c| - 1]) == None
  {
    var n := |steps|;
    var m := Build(steps, labels);
    BuildTailNext(steps, labels);
    forall i | 1 <= i <= n
      ensures NextKey(m, StepKey(i)) == Some(if i < n then StepKey(i + 1) else SummaryKey)
    {
      BuildStepNext(steps, labels, i);
    }
    ChainLinksOf(m, n);
  }

  /** A map built from N > 0 steps has the chain `s1 .. sN`, `summary`,
      `confirm`, `end`. */
  lemma BuildIsChainShaped(steps: seq<StepSpec>, labels: TailLabels)
    requires |steps| > 0
    ensures ChainShaped(Build(steps, labels), Chain(|steps|))
  {
    BuildChainNodes(steps, labels);
    BuildChainLinks(steps, labels);
  }

  /** The key reached from `key` after `j` accepted answers, if any. */
  function Iterate(m: StepMap, key: string, j: nat): Option<string>
    decreases j
  {
    if j == 0 then Some(key)
    else match NextKey(m, key)
      case None => None
      case Some(k) => Iterate(m, k, j - 1)
  }

  lemma {:induction false} IterateAlongChain(m: StepMap, chain: seq<string>, p: nat, j: nat)
    requires ChainShaped(m, chain) && p < |chain|
    ensures p + j < |chain| ==> Iterate(m, chain[p], j) == Some(chain[p + j])
    ensures p + j == |chain| ==> Iterate(m, chain[p], j) == None
    decreases j
  {
    if j > 0 && p < |chain| - 1 {
      assert NextKey(m, chain[p]) == Some(chain[p + 1]);
      IterateAlongChain(m, chain, p + 1, j - 1);
    }
  }

  /** From the head of a chain, `j` accepted answers reach the `j`-th key
      while `j` stays inside the chain, the last key is reached only at the
      end, and one answer more reaches nothing. */
  lemma IterateFromHead(m: StepMap, chain: seq<string>)
    requires ChainShaped(m, chain)
    requires forall j :: 0 <= j < |chain| - 1 ==> chain[j] != chain[|chain| - 1]
    ensures Iterate(m, chain[0], |chain| - 1) == Some(chain[|chain| - 1])
    ensures forall j :: 0 <= j < |chain| - 1 ==> Iterate(m, chain[0], j) != Some(chain[|chain| - 1])
    ensures Iterate(m, chain[0], |chain|) == None
  {
    forall j | 0 <= j < |chain| - 1
      ensures Iterate(m, chain[0], j) != Some(chain[|chain| - 1])
    {
      IterateAlongChain(m, chain, 0, j);
    }
    IterateAlongChain(m, chain, 0, |chain| - 1);
    IterateAlongChain(m, chain, 0, |chain|);
  }

  /** The chain of a map built from N steps ends at `end` and visits it
      only once. */
  lemma ChainEndsOnce(n: nat)
    requires n > 0
    ensures Chain(n)[0] == StepKey(1)
    ensures forall j :: 0 <= j < n + 2 ==> Chain(n)[j] != EndKey
  {
    var c := Chain(n);
    forall j | 0 <= j < n + 2
      ensures c[j] != EndKey
    {
      if j < n {
        StepKeyNotTail(j + 1);
      }
    }
  }

  /** From `s1`, the successor links reach `end` after exactly N + 2
      accepted answers (N steps, `summary`, `confirm`), and `end` is
      terminal. */
  lemma ChainReachesEnd(steps: seq<StepSpec>, labels: TailLabels)
    requires |steps| > 0
    ensures Iterate(Build(steps, labels), StepKey(1), |steps| + 2) == Some(EndKey)
    ensures forall j :: 0 <= j < |steps| + 2 ==> Iterate(Build(steps, labels), StepKey(1), j) != Some(EndKey)
    ensures Iterate(Build(steps, labels), StepKey(1), |steps| + 3) == None
  {
    BuildIsChainShaped(steps, labels);
    ChainEndsOnce(|steps|);
    IterateFromHead(Build(steps, labels), Chain(|steps|));
  }

  // ----- A whole conversation -----

  /** How a client moves on one answer: from a step and a context to the
      next step and context. */
  type Move = (string, Context, string) -> (string, Context)

  /** Whether an answer sent at a step is accepted there. */
  type Acceptance = (string, string) -> bool

  /** The step and context after a sequence of answers, each applied by `move`. */
  function Walk(move: Move, step: string, context: Context, answers: seq<string>): (string, Context)
    decreases |answers|
  {
    if answers == [] then (step, context)
    else
      var next := move(step, context, answers[0]);
      Walk(move, next.0, next.1, answers[1..])
  }

  /** Every answer of a walk is accepted at the step it is sent at. */
  predicate WalkAccepted(accepts: Acceptance, move: Move, step: string, context: Context, answers: seq<string>)
    decreases |answers|
  {
    answers == [] ||
    (accepts(step, answers[0]) &&
     var next := move(step, context, answers[0]);
     WalkAccepted(accepts, move, next.0, next.1, answers[1..]))
  }

  /** An accepted answer at any key of `chain` but the last moves to the next key. */
  ghost predicate MovesAlong(accepts: Acceptance, move: Move, chain: seq<string>) {
    forall q, c, a :: 0 <= q < |chain| - 1 && accepts(chain[q], a) ==> move(chain[q], c, a).0 == chain[q + 1]
  }

  /** A walk of accepted answers from the `p`-th key of a chain ends at
      the key as many places further on as there were answers. */
  lemma {:induction false} WalkAlongChain(accepts: Acceptance, move: Move, chain: seq<string>, p: nat,
                                          context: Context, answers: seq<string>)
    requires MovesAlong(accepts, move, chain)
    requires p + |answers| < |chain|
    requires WalkAccepted(accepts, move, chain[p], context, answers)
    ensures Walk(move, chain[p], context, answers).0 == chain[p + |answers|]
    decreases |answers|
  {
    if answers != [] {
      var next := move(chain[p], context, answers[0]);
      assert next.0 == chain[p + 1];
      WalkAlongChain(accepts, move, chain, p + 1, next.1, answers[1..]);
    }
  }

  /** Accepted answers stay accepted on any prefix of them. */
  lemma {:induction false} WalkAcceptedPrefix(accepts: Acceptance, move: Move, step: string, context: Context,
                                              answers: seq<string>, j: nat)
    requires j <= |answers|
    requires WalkAccepted(accepts, move, step, context, answers)
    ensures WalkAccepted(accepts, move, step, context, answers[..j])
    decreases j
  {
    if j > 0 {
      var next := move(step, context, answers[0]);
      WalkAcceptedPrefix(accepts, move, next.0, next.1, answers[1..], j - 1);
      assert answers[..j][1..] == answers[1..][..j - 1];
    }
  }

  /** A walk from the head of a chain whose answers are all accepted, one
      for each link, ends at the last key and is not there before. */
  lemma WalkFromHead(accepts: Acceptance, move: Move, chain: seq<string>, context: Context, answers: seq<string>)
    requires MovesAlong(accepts, move, chain)
    requires forall j :: 0 <= j < |chain| - 1 ==> chain[j] != chain[|chain| - 1]
    requires |answers| == |chain| - 1
    requires WalkAccepted(accepts, move, chain[0], context, answers)
    ensures Walk(move, chain[0], context, answers).0 == chain[|chain| - 1]
    ensures forall j :: 0 <= j < |answers| ==> Walk(move, chain[0], context, answers[..j]).0 != chain[|chain| - 1]
  {
    WalkAlongChain(accepts, move, chain, 0, context, answers);
    forall j | 0 <= j < |answers|
      ensures Walk(move, chain[0], context, answers[..j]).0 != chain[|chain| - 1]
    {
      WalkAcceptedPrefix(accepts, move, chain[0], context, answers, j);
      WalkAlongChain(accepts, move, chain, 0, context, answers[..j]);
    }
  }

  /** The step and context the client holds after one answer: it takes
      the reply's `next` and `context` when they are there. */
  function Advance(flow: Flow, step: string, context: Context, answer: string, matches: Matcher): (string, Context)
    requires ValidMap(flow.stepMap)
  {
    var r := Evaluate(flow, step, answer, context, None, matches, 0);
    (if Present(r.next) then r.next.value else step, r.context.GetOr(context))
  }

  /** The client's move against the handler of `flow`. */
  function ClientMove(flow: Flow, matches: Matcher): Move
    requires ValidMap(flow.stepMap)
  {
    (step, context, answer) => Advance(flow, step, context, answer, matches)
  }

  /** An answer is accepted when it is non-empty and the resolved node accepts it. */
  function Accepting(flow: Flow, matches: Matcher): Acceptance
    requires ValidMap(flow.stepMap)
  {
    (step, answer) => answer != "" && Accepts(matches, Resolve(flow.stepMap, step), answer)
  }

  /** The step and context after a sequence of answers. */
  function Converse(flow: Flow, step: string, context: Context, answers: seq<string>, matches: Matcher): (string, Context)
    requires ValidMap(flow.stepMap)
  {
    Walk(ClientMove(flow, matches), step, context, answers)
  }

  /** Every answer is non-empty and accepted by the node it is sent to. */
  predicate AllAccepted(flow: Flow, step: string, context: Context, answers: seq<string>, matches: Matcher)
    requires ValidMap(flow.stepMap)
  {
    WalkAccepted(Accepting(flow, matches), ClientMove(flow, matches), step, context, answers)
  }

  /** One accepted answer at a key of the chain moves the client to the next key. */
  lemma AdvanceAlongChain(flow: Flow, chain: seq<string>, p: nat, context: Context, answer: string, matches: Matcher)
    requires ValidMap(flow.stepMap) && ChainShaped(flow.stepMap, chain)
    requires p < |chain| - 1
    requires answer != "" && Accepts(matches, Resolve(flow.stepMap, chain[p]), answer)
    ensures Advance(flow, chain[p], context, answer, matches).0 == chain[p + 1]
  {
    var key := chain[p];
    assert Resolve(flow.stepMap, key).key == key;
    assert NextKey(flow.stepMap, key) == Some(chain[p + 1]);
  }

  /** Against a chain-shaped map, the client moves along the chain. */
  lemma ClientMovesAlongChain(flow: Flow, chain: seq<string>, matches: Matcher)
    requires ValidMap(flow.stepMap) && ChainShaped(flow.stepMap, chain)
    ensures MovesAlong(Accepting(flow, matches), ClientMove(flow, matches), chain)
  {
    var accepts := Accepting(flow, matches);
    var move := ClientMove(flow, matches);
    forall q, c, a | 0 <= q < |chain| - 1 && accepts(chain[q], a)
      ensures move(chain[q], c, a).0 == chain[q + 1]
    {
      AdvanceAlongChain(flow, chain, q, c, a, matches);
    }
  }

  /** A conversation from the head of a chain whose answers are all
      accepted, one for each link, ends at the last key and is not there
      before. */
  lemma ConverseFromHead(flow: Flow, chain: seq<string>, context: Context, answers: seq<string>, matches: Matcher)
    requires ValidMap(flow.stepMap) && ChainShaped(flow.stepMap, chain)
    requires forall j :: 0 <= j < |chain| - 1 ==> chain[j] != chain[|chain| - 1]
    requires |answers| == |chain| - 1
    requires AllAccepted(flow, chain[0], context, answers, matches)
    ensures Converse(flow, chain[0], context, answers, matches).0 == chain[|chain| - 1]
    ensures forall j :: 0 <= j < |answers| ==> Converse(flow, chain[0], context, answers[..j], matches).0 != chain[|chain| - 1]
  {
    ClientMovesAlongChain(flow, chain, matches);
    WalkFromHead(Accepting(flow, matches), ClientMove(flow, matches), chain, context, answers);
  }

  /** A conversation that starts at `s1` and whose answers are all
      accepted is at `end` after exactly N + 2 answers, and not before. */
  lemma ConversationReachesEnd(flow: Flow, steps: seq<StepSpec>, labels: TailLabels,
                               context: Context, answers: seq<string>, matches: Matcher)
    requires |steps| > 0 && flow.stepMap == Build(steps, labels)
    requires |answers| == |steps| + 2
    requires ValidMap(flow.stepMap)
    requires AllAccepted(flow, StepKey(1), context, answers, matches)
    ensures Converse(flow, StepKey(1), context, answers, matches).0 == EndKey
    ensures forall j :: 0 <= j < |answers| ==> Converse(flow, StepKey(1), context, answers[..j], matches).0 != EndKey
  {
    BuildIsChainShaped(steps, labels);
    ChainEndsOnce(|steps|);
    ConverseFromHead(flow, Chain(|steps|), context, answers, matches);
  }

  // ----- The start of a conversation and unknown step keys -----

  /** A prompt-only request from `_start` shows the first step's prompt
      and moves to `s1`, without touching the context. */
  lemma StartShowsFirstStep(flow: Flow, steps: seq<StepSpec>, labels: TailLabels, context: Context, matches: Matcher)
    requires |steps| > 0 && flow.stepMap == Build(steps, labels)
    ensures ValidMap(flow.stepMap)
    ensures Evaluate(flow, StartStep, "", context, None, matches, 0) == Reply(Role, steps[0].prompt, Some(StepKey(1)), None, None, None, false)
  {
    BuildValid(steps, labels);
  }

  /** A step key that names no node behaves exactly like the first step. */
  lemma UnknownStepIsFirstStep(flow: Flow, step: string, answer: string, context: Context, hintIndex: Option<int>,
                               matches: Matcher, roll: nat)
    requires ValidMap(flow.stepMap) && roll < |RetryMessages|
    requires step !in flow.stepMap.nodes
    ensures Evaluate(flow, step, answer, context, hintIndex, matches, roll)
         == Evaluate(flow, flow.stepMap.order[0], answer, context, hintIndex, matches, roll)
  {
  }

  /** Sending the token at `confirm` moves to `end`, keeps the context as
      it was, and carries forward the hand-off text it holds. */
  lemma ConfirmMovesToEnd(flow: Flow, steps: seq<StepSpec>, labels: TailLabels, context: Context, matches: Matcher, roll: nat)
    requires |steps| > 0 && flow.stepMap == Build(steps, labels)
    requires roll < |RetryMessages|
    ensures ValidMap(flow.stepMap)
    ensures var r := Evaluate(flow, ConfirmKey, ConfirmToken, context, None, matches, roll);
      r.next == Some(EndKey) && r.context == Some(context) && r.sendText == SendTextIn(context)
  {
    var m := flow.stepMap;
    BuildValid(steps, labels);
    BuildNodes(steps, labels);
    BuildOrder(steps, labels);
    BuildLinks(steps, labels);
    StepKeyNotTail(|steps|);
    assert LastKey(m.order) == StepKey(|steps|);
    var node := Resolve(m, ConfirmKey);
    assert node == ConfirmNode(labels);
    assert Accepts(matches, node, ConfirmToken);
    assert NextKey(m, node.key) == Some(EndKey);
    assert Captured(node, ConfirmToken, context) == context;
  }

  /** At `confirm` an answer is accepted exactly when it is the send
      token, whatever the matcher says of other patterns. */
  lemma ConfirmAcceptsOnlyToken(steps: seq<StepSpec>, labels: TailLabels, answer: string, matches: Matcher)
    ensures var node := Build(steps, labels).nodes[ConfirmKey];
      Accepts(matches, node, answer) <==> answer == ConfirmToken
  {
    BuildNodes(steps, labels);
  }

  // ----- Capture keys of the registered flows -----

  /** Every step of `steps` that captures has a key of its own, and none
      captures into `key`. */
  predicate OwnCaptures(steps: seq<StepSpec>, key: string) {
    && (forall i, j :: 0 <= i < j < |steps| && Present(steps[i].capture) && Present(steps[j].capture) ==>
          steps[i].capture.value != steps[j].capture.value)
    && (forall i :: 0 <= i < |steps| && Present(steps[i].capture) ==> steps[i].capture.value != key)
  }

  /** Within each registered flow every step captures into its own key,
      and no step captures into the hand-off key `__sendText`. */
  lemma RegisteredCapturesDistinct(keyword: string)
    requires keyword in Registry()
    ensures OwnCaptures(StepsOf(keyword), SendTextKey)
  {
    if keyword == KeywordQ1 {
      OwnCapturesQ1();
    } else if keyword == KeywordQ2 {
      OwnCapturesQ2();
    } else if keyword == KeywordQ3 {
      OwnCapturesQ3();
    } else {
      OwnCapturesQ4();
    }
  }

  /** The capture keys of the first question: `page`, `evidenceDoc`, `evidencePages`. */
  lemma OwnCapturesQ1()
    ensures OwnCaptures(Q1Steps(), SendTextKey)
  {
  }

  /** The capture keys of the second question: `titles`, `group`, `exception`. */
  lemma OwnCapturesQ2()
    ensures OwnCaptures(Q2Steps(), SendTextKey)
  {
  }

  /** The capture keys of the third question: `client`, `linked`, `route`. */
  lemma OwnCapturesQ3()
    ensures OwnCaptures(Q3Steps(), SendTextKey)
  {
  }

  /** The capture keys of the fourth question: `facility`, `sources`, `form`, `culprit`. */
  lemma OwnCapturesQ4()
    ensures OwnCaptures(Q4Steps(), SendTextKey)
  {
  }

  /** A key no step captures into is not captured into by any node a
      built map resolves to: the tail nodes capture nothing. */
  lemma NoNodeCapturesInto(steps: seq<StepSpec>, labels: TailLabels, key: string, step: string)
    requires |steps| > 0
    requires OwnCaptures(steps, key)
    ensures ValidMap(Build(steps, labels))
    ensures var node := Resolve(Build(steps, labels), step);
      Present(node.capture) ==> node.capture.value != key
  {
    BuildValid(steps, labels);
    BuildNodes(steps, labels);
    BuildNodesDomain(steps, labels);
    var m := Build(steps, labels);
    var k := if step in m.nodes then step else m.order[0];
    assert Resolve(m, step) == m.nodes[k];
    if k != SummaryKey && k != ConfirmKey && k != EndKey {
      var j :| 1 <= j <= |steps| && k == StepKey(j);
      assert m.nodes[k] == StepNode(j, steps[j - 1]);
    }
  }

  /** In a flow whose steps have their own capture keys, an accepted
      answer at a capturing step is always stored under the step's key. */
  lemma CaptureWritten(flow: Flow, steps: seq<StepSpec>, labels: TailLabels, step: string, answer: string,
                       context: Context, matches: Matcher, roll: nat)
    requires |steps| > 0 && flow.stepMap == Build(steps, labels)
    requires OwnCaptures(steps, SendTextKey)
    requires roll < |RetryMessages|
    ensures ValidMap(flow.stepMap)
    ensures var node := Resolve(flow.stepMap, step);
      var r := Evaluate(flow, step, answer, context, None, matches, roll);
      answer != "" && Accepts(matches, node, answer) && Present(node.capture) ==>
        node.capture.value != SendTextKey && node.capture.value in r.context.value && r.context.value[node.capture.value] == answer
  {
    NoNodeCapturesInto(steps, labels, SendTextKey, step);
  }

  // ----- A worked example: the first question -----

  /** The first two nodes of a map built from two steps or more, and the
      link between them. */
  lemma FirstTwoNodes(steps: seq<StepSpec>, labels: TailLabels)
    requires |steps| >= 2
    ensures ValidMap(Build(steps, labels))
    ensures var m := Build(steps, labels);
      && m.order[0] == StepKey(1) && StepKey(1) in m.nodes && StepKey(2) in m.nodes
      && m.nodes[StepKey(1)] == StepNode(1, steps[0])
      && m.nodes[StepKey(2)] == StepNode(2, steps[1])
      && NextKey(m, StepKey(1)) == Some(StepKey(2))
  {
    BuildValid(steps, labels);
    BuildNodes(steps, labels);
    BuildStepNext(steps, labels, 1);
  }

  /** The first two nodes of the first question's map. */
  lemma FirstQuestionNodes()
    ensures StepKey(1) == "s1" && StepKey(2) == "s2"
    ensures ValidMap(FlowQ1().stepMap)
    ensures var m := FlowQ1().stepMap;
      && m.order[0] == "s1" && "s1" in m.nodes && "s2" in m.nodes
      && m.nodes["s1"] == StepNode(1, Q1Steps()[0])
      && m.nodes["s2"] == StepNode(2, Q1Steps()[1])
      && NextKey(m, "s1") == Some("s2")
  {
    assert StepKey(1) == "s1" && StepKey(2) == "s2";
    FirstTwoNodes(Q1Steps(), NoLabels);
  }

  /** The first question, opened from `_start`: its first prompt is shown
      and the client moves to `s1`. */
  lemma FirstQuestionStart(matches: Matcher, roll: nat)
    requires roll < |RetryMessages|
    ensures ValidMap(FlowQ1().stepMap)
    ensures var r := Evaluate(FlowQ1(), StartStep, "", map[], None, matches, roll);
      r.prompt == "Q1.s1.prompt" && r.next == Some("s1") && r.context == None
  {
    FirstQuestionNodes();
  }

  /** At `s1` of the first question, "17" (accepted by the step's
      pattern) is captured as `page` and moves to `s2`, with the step's
      praise before the next prompt. */
  lemma FirstQuestionAccept(matches: Matcher, roll: nat)
    requires matches("^(17|１７)$", "17")
    requires roll < |RetryMessages|
    ensures ValidMap(FlowQ1().stepMap)
    ensures var r := Evaluate(FlowQ1(), "s1", "17", map[], None, matches, roll);
      && r.next == Some("s2") && r.context == Some(map["page" := "17"]) && !r.retry
      && r.prompt == "Q1.s1.praise" + PromptSeparator + "Q1.s2.prompt"
  {
    FirstQuestionNodes();
    assert Captured(Resolve(FlowQ1().stepMap, "s1"), "17", map[]) == map["page" := "17"];
  }

  /** At `s1` of the first question, "5" (rejected by the step's pattern)
      is answered with a retry that stays at `s1` and keeps the context. */
  lemma FirstQuestionReject(matches: Matcher, roll: nat)
    requires !matches("^(17|１７)$", "5")
    requires roll < |RetryMessages|
    ensures ValidMap(FlowQ1().stepMap)
    ensures var r := Evaluate(FlowQ1(), "s1", "5", map[], None, matches, roll);
      r.retry && r.next == Some("s1") && r.context == Some(map[])
  {
    FirstQuestionNodes();
  }
}
