/** The flow registry of the chat function (`getFlows`,
    netlify/functions/chat.js:215-480): four flows, each a step map built
    from its steps, a summary builder and the short answer that is handed
    off at the end. The literal prompt, praise, hint and summary texts of
    the four flows are stood for by labels such as "Q1.s1.prompt"; the
    patterns, capture keys, hint counts and short answers are the
    source's own. */
module Flows {
  import opened Wrappers
  import opened StepMaps

  /** The conversation context: capture key to captured answer. */
  type Context = map<string, string>

  /** A summary builder: `(context, lastAnswer) -> text`. */
  type SummaryBuilder = (Context, string) -> string

  datatype Flow = Flow(stepMap: StepMap, summaryBuilder: Option<SummaryBuilder>, shortAnswer: Option<string>)

  const KeywordQ1 := "行方不明者の根拠"
  const KeywordQ2 := "行方不明者の特徴"
  const KeywordQ3 := "行方不明になった場所"
  const KeywordQ4 := "真相"

  /** `defaultSummary`: the generic summary, which ignores its arguments. */
  function DefaultSummary(ctx: Context, lastAnswer: string): string {
    "一緒に整理すると、『参加者数が減っているのに全員参加と記されている』という矛盾が浮かび上がってきますね。" +
    "この結論で、奇録会に送信してみましょうか？（送信 と入力）"
  }

  const NoLabels := TailLabels(None, None)

  function Q1Steps(): seq<StepSpec> {
    [ StepSpec("Q1.s1.prompt", Some("^(17|１７)$"), Some("page"), Some("Q1.s1.praise"), Some(["Q1.s1.hint1"])),
      StepSpec("Q1.s2.prompt", Some("^参加者推移$"), None, Some("Q1.s2.praise"), Some(["Q1.s2.hint1"])),
      StepSpec("Q1.s3.prompt", Some("^村内住民が減っている$"), None, Some("Q1.s3.praise"), Some(["Q1.s3.hint1"])),
      StepSpec("Q1.s4.prompt", Some("^広報こだま$"), Some("evidenceDoc"), Some("Q1.s4.praise"), Some(["Q1.s4.hint1"])),
      StepSpec("Q1.s5.prompt",
        Some("^(?=.*[1１])(?=.*[2２])(?=.*[3３])(?=.*[4４])(?!.*[5-9５-９])(?:[1-4１-４])(\\s*[、，,]\\s*[1-4１-４])*$"),
        Some("evidencePages"), Some("Q1.s5.praise"), Some(["Q1.s5.hint1", "Q1.s5.hint2"])) ]
  }

  function Q2Steps(): seq<StepSpec> {
    [ StepSpec("Q2.s1.prompt", Some("(?=.*贄)(?=.*光泉ダム建設計画反対運動ビラ)"), Some("titles"), Some("Q2.s1.praise"),
        Some(["Q2.s1.hint1", "Q2.s1.hint2", "Q2.s1.hint3", "Q2.s1.hint4"])),
      StepSpec("Q2.s2.prompt", Some("^篝森山を守る会$"), Some("group"), Some("Q2.s2.praise"), Some(["Q2.s2.hint1"])),
      StepSpec("Q2.s3.prompt", Some("^田島里江$"), Some("exception"), Some("Q2.s3.praise"), Some(["Q2.s3.hint1"])) ]
  }

  function Q3Steps(): seq<StepSpec> {
    [ StepSpec("Q3.s1.prompt", Some("^杉山陽子$"), Some("client"), Some("Q3.s1.praise"),
        Some(["Q3.s1.hint1", "Q3.s1.hint2", "Q3.s1.hint3", "Q3.s1.hint4", "Q3.s1.hint5"])),
      StepSpec("Q3.s2.prompt", Some("^佐久間圭介$"), Some("linked"), Some("Q3.s2.praise"),
        Some(["Q3.s2.hint1", "Q3.s2.hint2", "Q3.s2.hint3", "Q3.s2.hint4"])),
      StepSpec("Q3.s3.prompt", Some("^裏道ルート$"), Some("route"), Some("Q3.s3.praise"),
        Some(["Q3.s3.hint1", "Q3.s3.hint2", "Q3.s3.hint3", "Q3.s3.hint4", "Q3.s3.hint5",
              "Q3.s3.hint6", "Q3.s3.hint7", "Q3.s3.hint8", "Q3.s3.hint9"])) ]
  }

  function Q4Steps(): seq<StepSpec> {
    [ StepSpec("Q4.s1.prompt", Some("^毒ガス$"), Some("facility"), Some("Q4.s1.praise"), Some(["Q4.s1.hint1", "Q4.s1.hint2"])),
      StepSpec("Q4.s2.prompt", Some("(?=.*広報こだま)(?=.*霧籠郷土館民俗史第八六九号)"), Some("sources"), Some("Q4.s2.praise"),
        Some(["Q4.s2.hint1", "Q4.s2.hint2", "Q4.s2.hint3"])),
      StepSpec("Q4.s3.prompt", Some("^地図記号$"), Some("form"), Some("Q4.s3.praise"),
        Some(["Q4.s3.hint1", "Q4.s3.hint2", "Q4.s3.hint3", "Q4.s3.hint4"])),
      StepSpec("Q4.s4.prompt", Some("^竹林辰雄$"), Some("culprit"), Some("Q4.s4.praise"), Some(["Q4.s4.hint1"])) ]
  }

  function FlowQ1(): Flow {
    Flow(Build(Q1Steps(), NoLabels), Some((ctx: Context, last: string) => "Q1.summary"), Some("参加者推移と、死亡者数が合わない"))
  }

  function FlowQ2(): Flow {
    Flow(Build(Q2Steps(), NoLabels), Some((ctx: Context, last: string) => "Q2.summary"), Some("ダム反対派の篝森山を守る会と、例外として田島里江"))
  }

  function FlowQ3(): Flow {
    Flow(Build(Q3Steps(), NoLabels), Some((ctx: Context, last: string) => "Q3.summary"), Some("篝森山の裏道ルート"))
  }

  function FlowQ4(): Flow {
    Flow(Build(Q4Steps(), NoLabels), Some((ctx: Context, last: string) => "Q4.summary"), Some("篝森山は旧毒ガス製造施設で、真犯人は竹林辰雄"))
  }

  /** `getFlows()`: the registry, keyword to flow. */
  function Registry(): (r: map<string, Flow>)
    ensures r.Keys == {KeywordQ1, KeywordQ2, KeywordQ3, KeywordQ4}
  {
    map[KeywordQ1 := FlowQ1(), KeywordQ2 := FlowQ2(), KeywordQ3 := FlowQ3(), KeywordQ4 := FlowQ4()]
  }

  /** The step list each registered flow is built from: five, three,
      three and four steps; every flow has its own summary builder and a
      short answer. */
  function StepsOf(keyword: string): (steps: seq<StepSpec>)
    requires keyword in Registry()
    ensures Registry()[keyword].stepMap == Build(steps, NoLabels)
    ensures |steps| == (if keyword == KeywordQ1 then 5 else if keyword == KeywordQ4 then 4 else 3)
    ensures Registry()[keyword].summaryBuilder.Some? && Present(Registry()[keyword].shortAnswer)
  {
    if keyword == KeywordQ1 then Q1Steps()
    else if keyword == KeywordQ2 then Q2Steps()
    else if keyword == KeywordQ3 then Q3Steps()
    else Q4Steps()
  }

  /** `flows[keyword]`: a registered flow or nothing. */
  function Lookup(keyword: string): (r: Option<Flow>)
    ensures r.Some? <==> keyword in {KeywordQ1, KeywordQ2, KeywordQ3, KeywordQ4}
    ensures r.Some? ==> keyword in Registry() && r.value == Registry()[keyword]
  {
    if keyword in Registry() then Some(Registry()[keyword]) else None
  }

  /** Every registered flow has a first step the engine can fall back to. */
  lemma RegisteredFlowValid(keyword: string)
    requires keyword in Registry()
    ensures ValidMap(Registry()[keyword].stepMap)
  {
    BuildValid(StepsOf(keyword), NoLabels);
  }
}
