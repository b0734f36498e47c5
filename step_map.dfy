/** The step-map builder of the chat function (`buildMapFromSteps`,
    netlify/functions/chat.js:168-213): an ordered list of step
    specifications becomes nodes keyed `s1` .. `sN`, the traversal order,
    a successor table, and three fixed tail nodes `summary`, `confirm` and
    `end`. */
module StepMaps {
  import opened Wrappers
  import Decimal

  /** One step as a flow defines it; the optional fields may be missing,
      and `pattern` is the source's `expect`. */
  datatype StepSpec = StepSpec(
    prompt: string,
    pattern: Option<string>,
    capture: Option<string>,
    praise: Option<string>,
    hints: Option<seq<string>>)

  /** One node of a step map; `pattern` is the source's `expect`. The
      tail nodes have no pattern, capture, praise or hints, except
      `confirm`, whose pattern asks for the send token. */
  datatype Node = Node(
    key: string,
    role: string,
    prompt: string,
    pattern: Option<string>,
    capture: Option<string>,
    praise: Option<string>,
    hints: seq<string>)

  /** Optional overrides of the `confirm` and `end` prompts. */
  datatype TailLabels = TailLabels(confirmPrompt: Option<string>, endPrompt: Option<string>)

  /** The built map: `nodes` are the entries keyed by step key, `order`
      is `__order` and `next` is `__next`. */
  datatype StepMap = StepMap(nodes: map<string, Node>, order: seq<string>, next: map<string, string>)

  const Role := "nAVi"
  const SummaryKey := "summary"
  const ConfirmKey := "confirm"
  const EndKey := "end"
  const SummaryPlaceholder := "(dynamic)"
  /** The only pattern of the chat function that the model makes concrete. */
  const ConfirmPattern := "^送信$"
  const ConfirmToken := "送信"
  const DefaultConfirmPrompt := "この内容で奇録会に送信する準備ができました。よければ「LINEで送る」をタップしてください。（PCの場合は、クリップボードに送信内容がコピーされます。）"
  const DefaultEndPrompt := "ありがとうございます。あなたの整理した回答を、奇録会への報告に反映しておきますね。"
  /** What `order.at(-1)` becomes as an object key when `order` is empty. */
  const UndefinedKey := "undefined"

  /** `x || null` on an optional string. */
  function OrNull(o: Option<string>): (r: Option<string>)
    ensures r.Some? <==> Present(o)
    ensures r.Some? ==> r == o
  {
    if Present(o) then o else None
  }

  /** The key of the `i`-th step, counting from 1. */
  function StepKey(i: nat): string {
    "s" + Decimal.NatToString(i)
  }

  /** The node built for the `i`-th step (counting from 1). */
  function StepNode(i: nat, s: StepSpec): Node {
    Node(StepKey(i), Role, s.prompt, OrNull(s.pattern), OrNull(s.capture), OrNull(s.praise), s.hints.GetOr([]))
  }

  function SummaryNode(): Node {
    Node(SummaryKey, Role, SummaryPlaceholder, None, None, None, [])
  }

  function ConfirmNode(labels: TailLabels): Node {
    var prompt := if Present(labels.confirmPrompt) then labels.confirmPrompt.value else DefaultConfirmPrompt;
    Node(ConfirmKey, Role, prompt, Some(ConfirmPattern), None, None, [])
  }

  function EndNode(labels: TailLabels): Node {
    var prompt := if Present(labels.endPrompt) then labels.endPrompt.value else DefaultEndPrompt;
    Node(EndKey, Role, prompt, None, None, None, [])
  }

  /** The keys pushed onto `order` by the first `k` iterations of the step loop. */
  function OrderUpTo(k: nat): seq<string> {
    if k == 0 then [] else OrderUpTo(k - 1) + [StepKey(k)]
  }

  /** The node entries written by the first `k` iterations of the step loop. */
  function NodesUpTo(steps: seq<StepSpec>, k: nat): map<string, Node>
    requires k <= |steps|
  {
    if k == 0 then map[] else NodesUpTo(steps, k - 1)[StepKey(k) := StepNode(k, steps[k - 1])]
  }

  /** The successor entries written by the first `k` iterations of the
      step loop: every step but the last links to the one after it. */
  function LinksUpTo(steps: seq<StepSpec>, k: nat): map<string, string>
    requires k <= |steps|
  {
    if k == 0 then map[]
    else if k < |steps| then LinksUpTo(steps, k - 1)[StepKey(k) := StepKey(k + 1)]
    else LinksUpTo(steps, k - 1)
  }

  /** `order.at(-1)` used as an object key. */
  function LastKey(order: seq<string>): string {
    if order == [] then UndefinedKey else order[|order| - 1]
  }

  /** What `buildMapFromSteps(steps, labels)` returns. */
  function Build(steps: seq<StepSpec>, labels: TailLabels): StepMap {
    var order := OrderUpTo(|steps|);
    var nodes := NodesUpTo(steps, |steps|)[SummaryKey := SummaryNode()][ConfirmKey := ConfirmNode(labels)];
    var next := LinksUpTo(steps, |steps|)[LastKey(order) := SummaryKey][SummaryKey := ConfirmKey][ConfirmKey := EndKey];
    StepMap(nodes[EndKey := EndNode(labels)], order, next)
  }

  /** The builder as the source writes it: one pass over the steps that
      pushes each key and records its node and its link to the next step,
      then the three tail nodes and their links. */
  method BuildMapFromSteps(steps: seq<StepSpec>, labels: TailLabels) returns (m: StepMap)
    ensures m == Build(steps, labels)
  {
    var order: seq<string> := [];
    var nodes: map<string, Node> := map[];
    var next: map<string, string> := map[];
    var idx := 0;
    while idx < |steps|
      invariant 0 <= idx <= |steps|
      invariant order == OrderUpTo(idx)
      invariant nodes == NodesUpTo(steps, idx)
      invariant next == LinksUpTo(steps, idx)
    {
      var key := StepKey(idx + 1);
      order := order + [key];
      nodes := nodes[key := StepNode(idx + 1, steps[idx])];
      if idx < |steps| - 1 {
        next := next[key := StepKey(idx + 2)];
      }
      idx := idx + 1;
    }
    nodes := nodes[SummaryKey := SummaryNode()];
    nodes := nodes[ConfirmKey := ConfirmNode(labels)];
    next := next[LastKey(order) := SummaryKey];
    next := next[SummaryKey := ConfirmKey];
    next := next[ConfirmKey := EndKey];
    nodes := nodes[EndKey := EndNode(labels)];
    m := StepMap(nodes, order, next);
  }

  /** What the engine needs of a map: a first step that has a node. */
  predicate ValidMap(m: StepMap) {
    |m.order| > 0 && m.order[0] in m.nodes
  }

  // ----- Facts about step keys -----

  /** Step keys are `s` followed by digits, so they never name a tail node. */
  lemma StepKeyNotTail(i: nat)
    ensures StepKey(i) != SummaryKey && StepKey(i) != ConfirmKey && StepKey(i) != EndKey
    ensures StepKey(i) != UndefinedKey
  {
    var d := Decimal.NatToString(i);
    assert StepKey(i)[1] == d[0];
    assert Decimal.IsDigit(d[0]);
  }

  /** Distinct step numbers give distinct keys. */
  lemma StepKeyInjective(i: nat, j: nat)
    ensures StepKey(i) == StepKey(j) ==> i == j
  {
    if StepKey(i) == StepKey(j) {
      assert Decimal.NatToString(i) == StepKey(i)[1..];
      assert Decimal.NatToString(j) == StepKey(j)[1..];
      Decimal.NatToStringInjective(i, j);
    }
  }

  // ----- The traversal order -----

  /** `__order` is `[s1, ..., sk]`, in input order. */
  lemma {:induction false} OrderUpToIsKeys(k: nat)
    ensures |OrderUpTo(k)| == k
    ensures forall i :: 0 <= i < k ==> OrderUpTo(k)[i] == StepKey(i + 1)
  {
    if k > 0 {
      OrderUpToIsKeys(k - 1);
    }
  }

  // ----- The node entries -----

  /** After `k` iterations the keys `s1..sk` have entries, and the entry
      of `sj` is built from step `j`. */
  lemma {:induction false} NodesUpToAt(steps: seq<StepSpec>, k: nat)
    requires k <= |steps|
    ensures forall j :: 1 <= j <= k ==> StepKey(j) in NodesUpTo(steps, k) && NodesUpTo(steps, k)[StepKey(j)] == StepNode(j, steps[j - 1])
  {
    if k > 0 {
      NodesUpToAt(steps, k - 1);
      forall j | 1 <= j < k
        ensures StepKey(j) != StepKey(k)
      {
        StepKeyInjective(j, k);
      }
    }
  }

  /** After `k` iterations no other key has a node. */
  lemma {:induction false} NodesUpToDomain(steps: seq<StepSpec>, k: nat)
    requires k <= |steps|
    ensures forall key :: key in NodesUpTo(steps, k) ==> exists j :: 1 <= j <= k && key == StepKey(j)
  {
    if k > 0 {
      NodesUpToDomain(steps, k - 1);
      forall key | key in NodesUpTo(steps, k)
        ensures exists j :: 1 <= j <= k && key == StepKey(j)
      {
        if key in NodesUpTo(steps, k - 1) {
          var j :| 1 <= j <= k - 1 && key == StepKey(j);
          assert 1 <= j <= k;
        } else {
          assert key == StepKey(k);
        }
      }
    }
  }

  /** After `k` iterations the keys `s1..sk` other than the last step's
      have links, each to the key after it. */
  lemma {:induction false} LinksUpToAt(steps: seq<StepSpec>, k: nat)
    requires k <= |steps|
    ensures forall j :: 1 <= j <= k && j < |steps| ==> StepKey(j) in LinksUpTo(steps, k) && LinksUpTo(steps, k)[StepKey(j)] == StepKey(j + 1)
  {
    if k > 0 {
      LinksUpToAt(steps, k - 1);
      forall j | 1 <= j < k
        ensures StepKey(j) != StepKey(k)
      {
        StepKeyInjective(j, k);
      }
    }
  }

  /** After `k` iterations no other key has a link. */
  lemma {:induction false} LinksUpToDomain(steps: seq<StepSpec>, k: nat)
    requires k <= |steps|
    ensures forall key :: key in LinksUpTo(steps, k) ==> exists j :: 1 <= j <= k && j < |steps| && key == StepKey(j)
  {
    if k > 0 {
      LinksUpToDomain(steps, k - 1);
      forall key | key in LinksUpTo(steps, k)
        ensures exists j :: 1 <= j <= k && j < |steps| && key == StepKey(j)
      {
        if key in LinksUpTo(steps, k - 1) {
          var j :| 1 <= j <= k - 1 && j < |steps| && key == StepKey(j);
          assert 1 <= j <= k;
        } else {
          assert k < |steps| && key == StepKey(k);
        }
      }
    }
  }

  /** The nodes of a built map: `s_i` carries step `i`'s prompt, with
      pattern, capture and praise defaulting to none and hints to `[]`; the
      tail nodes are `summary`, `confirm` (expecting exactly the send token)
      and `end`. */
  lemma BuildNodes(steps: seq<StepSpec>, labels: TailLabels)
    ensures var m := Build(steps, labels);
      && (forall i :: 1 <= i <= |steps| ==> StepKey(i) in m.nodes && m.nodes[StepKey(i)] == StepNode(i, steps[i - 1]))
      && m.nodes[SummaryKey] == SummaryNode()
      && m.nodes[ConfirmKey] == ConfirmNode(labels)
      && m.nodes[ConfirmKey].pattern == Some(ConfirmPattern)
      && m.nodes[EndKey] == EndNode(labels)
  {
    var base := NodesUpTo(steps, |steps|);
    var nodes := Build(steps, labels).nodes;
    assert nodes == base[SummaryKey := SummaryNode()][ConfirmKey := ConfirmNode(labels)][EndKey := EndNode(labels)];
    NodesUpToAt(steps, |steps|);
    forall i | 1 <= i <= |steps|
      ensures StepKey(i) in nodes && nodes[StepKey(i)] == StepNode(i, steps[i - 1])
    {
      StepKeyNotTail(i);
      assert StepKey(i) in base && base[StepKey(i)] == StepNode(i, steps[i - 1]);
    }
  }

  /** A built map has no node other than the steps' and the three tail nodes. */
  lemma BuildNodesDomain(steps: seq<StepSpec>, labels: TailLabels)
    ensures forall key :: key in Build(steps, labels).nodes ==>
      key == SummaryKey || key == ConfirmKey || key == EndKey || exists j :: 1 <= j <= |steps| && key == StepKey(j)
  {
    NodesUpToDomain(steps, |steps|);
  }

  /** The order of a built map is `[s1, ..., sN]`. */
  lemma BuildOrder(steps: seq<StepSpec>, labels: TailLabels)
    ensures var m := Build(steps, labels);
      |m.order| == |steps| && forall i :: 0 <= i < |steps| ==> m.order[i] == StepKey(i + 1)
  {
    OrderUpToIsKeys(|steps|);
  }

  /** The successor links of a built map from a non-empty step list:
      `s_i -> s_(i+1)` for `i < N`, `s_N -> summary`, `summary -> confirm`
      and `confirm -> end`. */
  lemma BuildLinks(steps: seq<StepSpec>, labels: TailLabels)
    requires |steps| > 0
    ensures var m := Build(steps, labels);
      && (forall i :: 1 <= i < |steps| ==> StepKey(i) in m.next && m.next[StepKey(i)] == StepKey(i + 1))
      && StepKey(|steps|) in m.next && m.next[StepKey(|steps|)] == SummaryKey
      && m.next[SummaryKey] == ConfirmKey
      && m.next[ConfirmKey] == EndKey
  {
    var n := |steps|;
    var links := LinksUpTo(steps, n);
    LinksUpToAt(steps, n);
    OrderUpToIsKeys(n);
    assert LastKey(OrderUpTo(n)) == StepKey(n);
    var next := Build(steps, labels).next;
    assert next == links[StepKey(n) := SummaryKey][SummaryKey := ConfirmKey][ConfirmKey := EndKey];
    forall i | 1 <= i < n
      ensures StepKey(i) in next && next[StepKey(i)] == StepKey(i + 1)
    {
      StepKeyNotTail(i);
      StepKeyInjective(i, n);
    }
    StepKeyNotTail(n);
  }

  /** No other key of a built map from a non-empty step list has a
      successor; in particular `end` has none. */
  lemma BuildLinksDomain(steps: seq<StepSpec>, labels: TailLabels)
    requires |steps| > 0
    ensures var m := Build(steps, labels);
      && (forall key :: key in m.next ==>
            key == SummaryKey || key == ConfirmKey || exists j :: 1 <= j <= |steps| && key == StepKey(j))
      && EndKey !in m.next
  {
    var n := |steps|;
    var links := LinksUpTo(steps, n);
    LinksUpToDomain(steps, n);
    OrderUpToIsKeys(n);
    assert LastKey(OrderUpTo(n)) == StepKey(n);
    var next := Build(steps, labels).next;
    assert next == links[StepKey(n) := SummaryKey][SummaryKey := ConfirmKey][ConfirmKey := EndKey];
    forall key | key in next
      ensures key == SummaryKey || key == ConfirmKey || exists j :: 1 <= j <= n && key == StepKey(j)
    {
      if key in links {
        var j :| 1 <= j <= n && j < n && key == StepKey(j);
      } else if key == StepKey(n) {
      }
    }
    if EndKey in links {
      var j :| 1 <= j <= n && j < n && EndKey == StepKey(j);
      StepKeyNotTail(j);
    }
    StepKeyNotTail(n);
  }

  /** A map built from a non-empty step list has its first step `s1`,
      whose node is built from the first step. */
  lemma BuildValid(steps: seq<StepSpec>, labels: TailLabels)
    requires |steps| > 0
    ensures ValidMap(Build(steps, labels))
    ensures Build(steps, labels).order[0] == StepKey(1)
    ensures Build(steps, labels).nodes[StepKey(1)] == StepNode(1, steps[0])
  {
    BuildOrder(steps, labels);
    BuildNodes(steps, labels);
  }
}
