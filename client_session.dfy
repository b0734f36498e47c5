/** The session the browser client keeps between requests (script.js):
    the committed keyword, the current step, the context echoed by the
    server and the text to hand to LINE. What is drawn on the page, the
    typing animation, and `fetch` itself are not modelled: a submitted
    text yields the request the client would send, and a response (or a
    failed fetch) yields the new session. */
module ClientSession {
  import opened Wrappers
  import opened StepMaps
  import opened Flows
  import opened Engine
  import opened ClientText
  import Decimal

  /** The text that abandons the current question. */
  const ResetCommand := "別の回答を考える"
  /** The label handed to LINE when neither a payload nor a keyword is set. */
  const FallbackLabel := "回答"

  /** The four module-level variables of the client. */
  datatype SessionState = SessionState(keyword: string, step: string, context: Context, payload: string)

  /** The state on page load and after every reset. */
  function Idle(): SessionState {
    SessionState("", StartStep, map[], "")
  }

  /** A session is never left resting at `end`: reaching it resets. */
  predicate Resting(st: SessionState) {
    st.step != EndKey
  }

  /** What a submitted text leads to: nothing, a reset, or a request to
      the server (`initial` while no keyword is committed). */
  datatype Action = Ignore | Reset | Ask(request: Request, initial: bool)

  /** What came back from the server: a response body, or a fetch that failed. */
  datatype Outcome = Delivered(response: Response) | Failed

  // ----- The submit handler (script.js:94-120) -----

  /** The action for a submitted (already trimmed) text. The first
      text of a session is sent as the keyword with an empty answer;
      later texts are sent as answers under the committed keyword. */
  function SubmitAction(st: SessionState, text: string): (a: Action)
    ensures a == Ignore <==> text == ""
    ensures a == Reset <==> text == ResetCommand
    ensures a.Ask? ==>
      && a.initial == (st.keyword == "")
      && a.request.step == st.step && a.request.context == st.context && a.request.hintIndex == None
      && (a.initial ==> a.request.keyword == text && a.request.answer == "")
      && (!a.initial ==> a.request.keyword == st.keyword && a.request.answer == text)
  {
    if text == "" then Ignore
    else if text == ResetCommand then Reset
    else if st.keyword == "" then Ask(Request(text, st.step, "", st.context, None), true)
    else Ask(Request(st.keyword, st.step, text, st.context, None), false)
  }

  /** `Number(id)` of a hint button's id, kept only when it is a number. */
  function HintNumber(id: string): Option<int> {
    if id != "" && Decimal.AllDigits(id) then Some(Decimal.ParseDecimal(id)) else None
  }

  /** The request a hint button sends (script.js:123-126, 129-136): the
      current keyword and step, an empty answer, and the button's index. */
  function HintRequest(st: SessionState, button: HintButton): (r: Request)
    ensures r.keyword == st.keyword && r.step == st.step && r.answer == "" && r.context == st.context
    ensures r.hintIndex == HintNumber(button.id)
  {
    Request(st.keyword, st.step, "", st.context, HintNumber(button.id))
  }

  /** The buttons of a rejected answer ask for exactly the hint they are
      numbered for, so the server sees a hint request for index `i`. */
  lemma HintButtonAsksForItsHint(st: SessionState, hints: seq<string>, i: nat)
    requires i < |hints|
    ensures HintRequest(st, HintButtons(hints)[i]).hintIndex == Some(i)
  {
    var id := HintButtons(hints)[i].id;
    assert id == Decimal.NatToString(i);
    Decimal.ParseNatToString(i);
  }

  // ----- Applying a response (script.js:129-203) -----

  /** `linePayload || currentKeyword || '回答'`. */
  function HandOffLabel(payload: string, keyword: string): (l: string)
    ensures l != ""
    ensures payload != "" ==> l == payload
    ensures payload == "" && keyword != "" ==> l == keyword
  {
    if payload != "" then payload else if keyword != "" then keyword else FallbackLabel
  }

  /** The session after a response to a request sent under keyword `k`,
      and the text handed to LINE if the conversation ended. `plain` is
      the response prompt as plain text. */
  function Receive(st: SessionState, k: string, initial: bool, outcome: Outcome, plain: string): (r: (SessionState, Option<string>))
    // A failed fetch or a 404 changes nothing: in the initial phase the
    // keyword is not committed.
    ensures outcome.Failed? || outcome.response.NotFound? ==> r == (st, None)
    // Reaching `end` resets the session and hands off a non-empty label.
    ensures r.1.Some? ==> r.0 == Idle() && r.1.value != ""
    // The session is never left at `end`.
    ensures Resting(st) ==> Resting(r.0)
    ensures var kept := outcome.Delivered? && outcome.response.Reply? && r.1.None?;
      kept ==>
        var reply := outcome.response;
        // The keyword is committed by an accepted initial request.
        && r.0.keyword == (if initial then k else st.keyword)
        // The context is replaced only when the reply carries one.
        && r.0.context == (if reply.context.Some? then reply.context.value else st.context)
        // The step follows the reply's `next` when it is set.
        && r.0.step == (if Present(reply.next) then reply.next.value else st.step)
  {
    if outcome.Failed? || outcome.response.NotFound? then (st, None)
    else
      var reply := outcome.response;
      var keyword := if initial then k else st.keyword;
      var payload := if reply.next == Some(ConfirmKey) && reply.prompt != "" then LinePayload(keyword, plain) else st.payload;
      var context := if reply.context.Some? then reply.context.value else st.context;
      var step := if Present(reply.next) then reply.next.value else st.step;
      var payload' := if Present(reply.sendText) then reply.sendText.value else payload;
      if step == EndKey then (Idle(), Some(HandOffLabel(payload', keyword)))
      else (SessionState(keyword, step, context, payload'), None)
  }

  /** The hand-off text: the reply's `sendText` when it carries one;
      otherwise, on reaching `confirm` with a prompt, the payload built
      from the prompt; otherwise the payload already held. */
  lemma ReceivePayload(st: SessionState, k: string, initial: bool, reply: Response, plain: string)
    requires reply.Reply?
    ensures var r := Receive(st, k, initial, Delivered(reply), plain);
      var keyword := if initial then k else st.keyword;
      var payload := if Present(reply.sendText) then reply.sendText.value
                     else if reply.next == Some(ConfirmKey) && reply.prompt != "" then LinePayload(keyword, plain)
                     else st.payload;
      && (r.1.None? ==> r.0.payload == payload)
      && (r.1.Some? ==> r.1 == Some(HandOffLabel(payload, keyword)))
  {
  }

  /** A reply that moves to `end` always resets and hands off; the short
      answer it carries is what is handed off. */
  lemma EndHandsOffShortAnswer(st: SessionState, k: string, initial: bool, reply: Response, plain: string)
    requires reply.Reply? && reply.next == Some(EndKey)
    requires Present(reply.sendText)
    ensures Receive(st, k, initial, Delivered(reply), plain) == (Idle(), reply.sendText)
  {
  }

  /** The first request of a session commits its keyword exactly when the
      server knows it (short of a conversation that ends at once). */
  lemma InitialCommit(st: SessionState, k: string, outcome: Outcome, plain: string)
    requires st.keyword == "" && k != ""
    requires Receive(st, k, true, outcome, plain).1.None?
    ensures Receive(st, k, true, outcome, plain).0.keyword == k <==> outcome.Delivered? && outcome.response.Reply?
  {
  }

  /** End to end: a session at `confirm` whose context holds a short
      answer, and which sends the token, is reset and hands off that short
      answer. */
  lemma ConfirmEndsSession(st: SessionState, flow: Flow, steps: seq<StepSpec>, labels: TailLabels,
                           matches: Matcher, roll: nat, plain: string)
    requires |steps| > 0 && flow.stepMap == Build(steps, labels)
    requires st.keyword != "" && st.step == ConfirmKey
    requires SendTextKey in st.context && st.context[SendTextKey] != ""
    requires roll < |RetryMessages|
    ensures SubmitAction(st, ConfirmToken) == Ask(Request(st.keyword, ConfirmKey, ConfirmToken, st.context, None), false)
    ensures ValidMap(flow.stepMap) &&
      var r := Evaluate(flow, ConfirmKey, ConfirmToken, st.context, None, matches, roll);
      Receive(st, st.keyword, false, Delivered(r), plain) == (Idle(), Some(st.context[SendTextKey]))
  {
    ConfirmMovesToEnd(flow, steps, labels, st.context, matches, roll);
  }

  // ----- The client as the source writes it -----

  /** The module-level variables of script.js and the handlers that
      update them. */
  class Session {
    var currentKeyword: string
    var currentStep: string
    var context: Context
    var linePayload: string

    function State(): SessionState
      reads this
    {
      SessionState(currentKeyword, currentStep, context, linePayload)
    }

    /** Page load (script.js:14, 89-91). */
    constructor()
      ensures State() == Idle()
    {
      currentKeyword := "";
      currentStep := StartStep;
      context := map[];
      linePayload := "";
    }

    /** `resetFlow` (script.js:314-323); the notice it may show is not modelled. */
    method ResetFlow()
      modifies this
      ensures State() == Idle()
    {
      currentKeyword := "";
      currentStep := StartStep;
      context := map[];
      linePayload := "";
    }

    /** The submit handler: an empty text is ignored, the reset command
      resets without contacting the server, anything else becomes a
      request and leaves the session as it is until the reply. */
    method Submit(text: string) returns (action: Action)
      modifies this
      ensures action == SubmitAction(old(State()), text)
      ensures action == Reset ==> State() == Idle()
      ensures action != Reset ==> State() == old(State())
    {
      if text == "" {
        return Ignore;
      }
      if text == ResetCommand {
        ResetFlow();
        return Reset;
      }
      if currentKeyword == "" {
        return Ask(Request(text, currentStep, "", context, None), true);
      }
      return Ask(Request(currentKeyword, currentStep, text, context, None), false);
    }

    /** The state update of `askServer` for a request sent under
      keyword `k`, step by step as the source assigns the variables. */
    method ApplyResponse(k: string, initial: bool, outcome: Outcome, plain: string) returns (handOff: Option<string>)
      modifies this
      ensures (State(), handOff) == Receive(old(State()), k, initial, outcome, plain)
    {
      if outcome.Failed? || outcome.response.NotFound? {
        return None;
      }
      var data := outcome.response;
      if initial {
        currentKeyword := k;
      }
      if data.next == Some(ConfirmKey) && data.prompt != "" {
        linePayload := LinePayload(currentKeyword, plain);
      }
      if data.context.Some? {
        context := data.context.value;
      }
      if Present(data.next) {
        currentStep := data.next.value;
      }
      if Present(data.sendText) {
        linePayload := data.sendText.value;
      }
      handOff := None;
      if currentStep == EndKey {
        handOff := Some(HandOffLabel(linePayload, currentKeyword));
        ResetFlow();
      }
    }
  }
}
