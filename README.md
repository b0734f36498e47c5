# nAVi scripted-conversation model

A Dafny model of the guided "nAVi" chat: a Netlify function
(`netlify/functions/chat.js`) that walks a player through one of four
fixed question flows, and the browser client (`script.js`) that keeps
the player's session and hands the final answer to LINE.

The model has seven modules, one per file:

- `Wrappers` (wrappers.dfy): `Option` and the JavaScript truthiness of an optional string (`Present`).
- `Decimal` (decimal.dfy): the decimal rendering of a natural number.
  - JavaScript renders the number when it builds the keys `s1..sN`, the hint ordinals and the hint-button ids.
  - Parsing the rendering back gives the number, so the rendering is injective.
- `StepMaps` (step_map.dfy): `buildMapFromSteps`.
  - `Build` is a function specification of the builder.
  - `BuildMapFromSteps` is a method with the builder's loop, proved equal to `Build`.
  - Lemmas state the traversal order, the nodes with their defaults, the three tail nodes and the successor links.
- `Flows` (flows.dfy): `flowQ1`..`flowQ4`, `defaultSummary` and `getFlows`.
- `Engine` (engine.dfy): the handler body.
  - `Evaluate` is the reply to one parsed request, with its priority order stated in its contract.
  - `Handle` covers the keyword lookup and the 404.
  - `Answer` is the handler body written step by step like the source, proved equal to `Evaluate`.
  - Lemmas cover the successor chain and whole conversations.
- `ClientText` (client_text.dfy): `escapeHTML` and `buildLinePayload`.
- `ClientSession` (client_session.dfy): the client's session variables.
  - They are a `Session` class whose methods are the submit handler, `resetFlow` and the state update in `askServer`.
  - Each method is proved against a pure function (`SubmitAction`, `Receive`), and the properties are proved about those functions.

Inputs the source takes from the outside world are parameters of the model:

- The regular-expression test `new RegExp(p).test(a)` is a `Matcher` parameter. The `confirm` pattern `^送信$` is the only one made concrete, as equality with `送信`.
- `Math.random()` in `randomRetry` is a `roll` index below the number of retry messages.
- `plainTextFromHTML(data.prompt)` is a `plain` parameter of the response update.
- A failed `fetch` is the `Failed` outcome.

How many answers a conversation takes follows from the code. The chain built from N steps has N + 3 keys: `s1`..`sN`, `summary`, `confirm`, `end`. So N + 2 accepted answers lead from `s1` to `end`: one per step, one at `summary` and `送信` at `confirm`. A session also makes one prompt-only request from `_start`, which accepts no answer. `Engine.ChainReachesEnd` and `Engine.ConversationReachesEnd` state the N + 2.

## Model

| member | source | states |
|---|---|---|
| Decimal.NatToString | netlify/functions/chat.js:174 | the rendering of a number is a non-empty digit string with no leading zero unless the number is 0 |
| Decimal.ParseNatToString | netlify/functions/chat.js:174 | reading the rendering of `n` back gives `n` (induction) |
| Decimal.NatToStringInjective | netlify/functions/chat.js:174 | different numbers render differently |
| StepMaps.OrNull | netlify/functions/chat.js:180-182 | the source's `or null` default keeps a present, non-empty value and maps anything else to null |
| StepMaps.StepKeyInjective | netlify/functions/chat.js:174 | the keys `s${i}` of different steps differ |
| StepMaps.StepKeyNotTail | netlify/functions/chat.js:174-208 | no step key is `summary`, `confirm`, `end` or `undefined` |
| StepMaps.OrderUpToIsKeys | netlify/functions/chat.js:173-175 | after k iterations the order is `[s1..sk]` |
| StepMaps.NodesUpToAt | netlify/functions/chat.js:173-184 | after k iterations each `sj` (j ≤ k) holds the node built from step j |
| StepMaps.NodesUpToDomain | netlify/functions/chat.js:173-184 | after k iterations no key other than `s1..sk` has a node |
| StepMaps.LinksUpToAt | netlify/functions/chat.js:185 | after k iterations every `sj` with j ≤ k and j < N links to `s(j+1)` |
| StepMaps.LinksUpToDomain | netlify/functions/chat.js:185 | after k iterations no other key has a link |
| StepMaps.BuildMapFromSteps | netlify/functions/chat.js:168-213 | the builder's loop and tail assignments produce exactly `Build(steps, labels)` (loop invariants over order, nodes and links) |
| StepMaps.BuildOrder | netlify/functions/chat.js:173-175 | the order of a built map is `[s1..sN]`, in input order |
| StepMaps.BuildNodes | netlify/functions/chat.js:173-208 | `s_i` carries step i's prompt with pattern, capture and praise defaulting to null and hints to `[]`; the tail nodes are `summary`, `confirm` (pattern `^送信$`) and `end` |
| StepMaps.BuildNodesDomain | netlify/functions/chat.js:173-208 | a built map has no node besides `s1..sN` and the three tail nodes |
| StepMaps.BuildLinks | netlify/functions/chat.js:185-200 | `s_i → s_(i+1)` for i < N, `s_N → summary`, `summary → confirm`, `confirm → end` |
| StepMaps.BuildLinksDomain | netlify/functions/chat.js:185-200 | only those keys have links; in particular `end` has no successor |
| StepMaps.BuildValid | netlify/functions/chat.js:168-213 | a map built from a non-empty list has a first step `s1`, whose node comes from the first step spec |
| Flows.Registry | netlify/functions/chat.js:473-480 | the registry holds exactly the four keywords |
| Flows.StepsOf | netlify/functions/chat.js:228-470 | the four flows are built from 5, 3, 3 and 4 steps; each has a summary builder and a non-empty short answer |
| Flows.Lookup | netlify/functions/chat.js:46-47 | `flows[keyword]` finds a flow exactly for the four keywords, and the flow it finds is the one registered under that keyword |
| Flows.RegisteredFlowValid | netlify/functions/chat.js:473-480 | every registered flow has a first step to fall back to |
| Engine.HintText | netlify/functions/chat.js:58-60 | the hint message carries the ordinal `i+1` and ends with the hint itself |
| Engine.HintButtons | netlify/functions/chat.js:90-93 | one button per hint, id `i` and label `ヒント(i+1)`; the ids are distinct |
| Engine.Evaluate | netlify/functions/chat.js:49-142 | in priority order: a hint request answers from the resolved node's hints (the ordinal and hint, or the fixed no-such-hint message), stays at that node and returns the context unchanged; an empty answer shows the prompt of the resolved node (the first one from `_start`) and touches no context; a rejected answer retries in place with the hint buttons and the context unchanged; an accepted answer writes `context[capture]` and no other key, moves to `summary` after the last step and to the successor otherwise; reaching `summary` shows the builder's text after the praise and fixes `sendText` and `context.__sendText` to the short answer, or, for a flow without one, leaves the context exactly as captured; later replies carry `sendText` forward |
| Engine.Handle | netlify/functions/chat.js:44-47 | an unknown keyword is a 404 `not_found` with no evaluation; a known one is answered by `Evaluate` with status 200 |
| Engine.Answer | netlify/functions/chat.js:49-142 | the handler body, assigning `sendText`, `nextKey`, `promptText` and the context step by step, returns exactly `Evaluate`'s reply |
| Engine.Chain | netlify/functions/chat.js:185-200 | the chain of a built map is `s1..sN, summary, confirm, end` |
| Engine.BuildChainNodes | netlify/functions/chat.js:173-208 | every key along the chain of a built map is a node of its own key |
| Engine.BuildStepNext | netlify/functions/chat.js:113-115 | an accepted answer at `s_i` moves to `s_(i+1)`, or to `summary` after the last step |
| Engine.BuildTailNext | netlify/functions/chat.js:198-200 | after the steps, accepted answers move `summary → confirm → end`, and from `end` nowhere |
| Engine.ChainLinksOf | netlify/functions/chat.js:185-200 | those links make each key of the chain lead to the next one |
| Engine.BuildChainLinks | netlify/functions/chat.js:185-200 | along the chain of a built map each key leads to the next one, and `end` leads nowhere |
| Engine.BuildIsChainShaped | netlify/functions/chat.js:168-213 | a built map is shaped as its chain |
| Engine.IterateAlongChain | netlify/functions/chat.js:113-115 | j accepted answers from the p-th key reach the (p+j)-th key, and nothing past the end |
| Engine.IterateFromHead | netlify/functions/chat.js:113-115 | from the head of a chain, the last key is reached exactly after one answer per link |
| Engine.ChainEndsOnce | netlify/functions/chat.js:174-208 | the chain starts at `s1` and meets `end` only at its last place |
| Engine.ChainReachesEnd | netlify/functions/chat.js:185-200 | following the links from `s1` reaches `end` after exactly N + 2 accepted answers, not earlier, and nothing after |
| Engine.AdvanceAlongChain | netlify/functions/chat.js:106-142 | a client that takes the reply's `next` moves one key along the chain per accepted answer |
| Engine.WalkAlongChain | script.js:184-185 | a client that takes each reply's `next` and whose moves follow a chain ends, after accepted answers from the p-th key, exactly as many keys further on |
| Engine.WalkAcceptedPrefix | script.js:184-185 | every prefix of a walk of accepted answers is itself accepted |
| Engine.WalkFromHead | script.js:184-185 | a fully accepted walk from the head of a chain, one answer per link, ends at the last key and is not there before |
| Engine.ClientMovesAlongChain | netlify/functions/chat.js:106-142 | against a chain-shaped map, every accepted answer at a chain key moves the client to the next key of the chain |
| Engine.ConverseFromHead | netlify/functions/chat.js:106-142 | a fully accepted conversation from the head of the chain ends at its last key and is not there before |
| Engine.ConversationReachesEnd | netlify/functions/chat.js:106-142 | a client that keeps sending accepted answers from `s1` is at `end` after exactly N + 2 of them and not before |
| Engine.OwnCapturesQ1 | netlify/functions/chat.js:228-295 | the first question's steps capture into distinct keys (`page`, `evidenceDoc`, `evidencePages`), none of them `__sendText` |
| Engine.OwnCapturesQ2 | netlify/functions/chat.js:296-345 | the second question's steps capture into distinct keys, none of them `__sendText` |
| Engine.OwnCapturesQ3 | netlify/functions/chat.js:346-408 | the third question's steps capture into distinct keys, none of them `__sendText` |
| Engine.OwnCapturesQ4 | netlify/functions/chat.js:409-472 | the fourth question's steps capture into distinct keys, none of them `__sendText` |
| Engine.RegisteredCapturesDistinct | netlify/functions/chat.js:473-480 | in every registered flow each capturing step has a capture key of its own, and none captures into `__sendText` |
| Engine.NoNodeCapturesInto | netlify/functions/chat.js:51-53 | a key no step captures into is captured into by no node the handler can resolve to, since the tail nodes capture nothing |
| Engine.CaptureWritten | netlify/functions/chat.js:107 | in a flow whose steps have their own capture keys (as every registered flow has), an accepted answer at a capturing step is always stored under that step's key, with no exception for `__sendText` |
| Engine.StartShowsFirstStep | netlify/functions/chat.js:73-80 | a prompt-only request from `_start` shows the first step's prompt, moves to `s1` and sends no context |
| Engine.UnknownStepIsFirstStep | netlify/functions/chat.js:49-51 | an unknown step key behaves exactly like the first step |
| Engine.ConfirmMovesToEnd | netlify/functions/chat.js:106-142 | sending `送信` at `confirm` moves to `end`, keeps the context and carries its hand-off text forward |
| Engine.ConfirmAcceptsOnlyToken | netlify/functions/chat.js:190-197 | at `confirm` an answer is accepted exactly when it is `送信` |
| Engine.FirstTwoNodes | netlify/functions/chat.js:173-185 | the first two nodes of a built map and the link between them |
| Engine.FirstQuestionNodes | netlify/functions/chat.js:228-248 | the first question's `s1` and `s2` are built from its first two steps, and `s1` leads to `s2` |
| Engine.FirstQuestionStart | netlify/functions/chat.js:73-80 | opening the first question from `_start` shows its first prompt and moves to `s1` |
| Engine.FirstQuestionAccept | netlify/functions/chat.js:228-248 | at `s1` of the first question, `17` is captured as `page` and moves to `s2` behind the step's praise |
| Engine.FirstQuestionReject | netlify/functions/chat.js:84-103 | at `s1` of the first question, `5` is answered with a retry that stays at `s1` and keeps the context |
| ClientText.EscapeChar | script.js:327 | the five special characters become entities and every other character is kept |
| ClientText.NoSpecialsCons | script.js:327 | a text is free of special characters when its head and its rest are |
| ClientText.EscapeHTML | script.js:326-328 | the output has no `<`, `>`, `"` or `'`, is no shorter than the input, and equals the input exactly when the input has no special character |
| ClientText.EscapeConcat | script.js:327 | escaping distributes over concatenation |
| ClientText.Decoded | script.js:327 | the decoder consumes at least one character |
| ClientText.DecodedChar | script.js:327 | an escaped character decodes back to itself whatever follows |
| ClientText.UnescapeChar | script.js:327 | unescaping undoes one escaped character |
| ClientText.UnescapeEscape | script.js:326-328 | unescaping the escaped text gives back the original |
| ClientText.EscapeInjective | script.js:326-328 | different texts are escaped differently |
| ClientText.Head | script.js:27 | the head is `【keyword】`, or `【回答】` when the keyword is empty |
| ClientText.TruncateBody | script.js:29 | the body never exceeds 480 characters; a body of at most 480 is kept; a longer one becomes its first 477 characters and `…` |
| ClientText.LinePayload | script.js:26-31 | the payload is the head, a line break, then the truncated body |
| ClientText.LinePayloadShort | script.js:26-31 | with a short summary, the keyword and the summary can be read back from the payload |
| ClientSession.SubmitAction | script.js:94-120 | an empty text is ignored, `別の回答を考える` resets, the first text is sent as the keyword with an empty answer, and later texts are sent as answers under the committed keyword |
| ClientSession.HintRequest | script.js:123-136 | a hint button sends the current keyword, step and context, an empty answer and the button's number |
| ClientSession.HintButtonAsksForItsHint | script.js:123-136 | the button for hint i that the engine returns asks for exactly hint index i |
| ClientSession.HandOffLabel | script.js:192 | the hand-off label is the payload, else the keyword, else `回答`, so it is never empty |
| ClientSession.Receive | script.js:145-194 | a failed fetch or a 404 changes nothing, so an unknown keyword is never committed; otherwise the keyword is committed on an initial request, the context and step are replaced only when the reply carries them, and reaching `end` resets the session and hands off a non-empty label; the session is never left at `end` |
| ClientSession.ReceivePayload | script.js:178-189 | the payload is the reply's `sendText` when present; failing that, it is built from the prompt when `next` is `confirm`; otherwise it is kept |
| ClientSession.EndHandsOffShortAnswer | script.js:187-193 | a reply moving to `end` with a `sendText` resets the session and hands off that text |
| ClientSession.InitialCommit | script.js:148-158 | an initial request commits its keyword exactly when the reply is not a failure or a 404 |
| ClientSession.ConfirmEndsSession | script.js:178-193 | a session at `confirm` that holds a short answer and sends `送信` is reset and hands off that short answer |
| ClientSession.Session.constructor | script.js:89-91 | a new session has no keyword, is at `_start`, with an empty context and payload |
| ClientSession.Session.ResetFlow | script.js:314-318 | `resetFlow` clears the keyword, step, context and payload |
| ClientSession.Session.Submit | script.js:93-119 | the submit handler returns `SubmitAction`'s action and changes the session only for the reset command |
| ClientSession.Session.ApplyResponse | script.js:145-194 | the step-by-step update of `askServer` leaves the session and hand-off that `Receive` describes |

## Left out

- HTTP and JSON plumbing is not modelled: the 405 check for non-POST requests, `JSON.parse` of the body, `String(...).trim()` of the fields, `json()` and its headers, `res.json()` on the client. Requests arrive parsed and trimmed, and replies are values.
- Malformed request bodies are not modelled. A missing or non-object `context` defaults to `{}` in the source, and the model takes a context map as given.
- A response body that fails to parse (`{}` on the client) is not modelled; a response is either a `Response` value or a failed fetch.
- Regular-expression semantics are not modelled: every pattern except `^送信$` is decided by the `Matcher` parameter.
- `Math.random` is not modelled: the retry message is chosen by the `roll` parameter.
- The literal Japanese prompt, praise, hint and summary texts of the four flows are represented by labels such as `Q1.s1.prompt`. Their patterns, capture keys, hint counts and short answers are the source's own.
- The per-flow summary builders are constant functions returning the label of their text. The source's builders also ignore their arguments.
- Flows.DefaultSummary: it is modelled with its text but has no contract of its own. It is used when a flow has no builder, which none of the four registered flows lacks.
- Everything on the page is not modelled: `addMsg`, the typing animation of `nAViSay`, the hint and LINE buttons, `rendernAViBlock` (which is never called), scrolling, `setVH`, and the notice `resetFlow(true)` shows.
- `plainTextFromHTML` depends on the DOM; its result is the `plain` parameter.
- `smartLineOpen` is not modelled. It involves a user-agent sniff, the clipboard, `window.open` and `encodeURIComponent`. The model returns the label that would be opened.
- The asynchronous sequencing of `askServer` is not modelled: a response is applied as one synchronous update.
- ClientText.TruncateBody: lengths count characters, while JavaScript counts UTF-16 code units, so a summary with characters outside the Basic Multilingual Plane is cut at a different place.
- ClientSession.HintNumber: `Number(id)` is modelled only for plain decimal ids (those the engine produces). Other numeric spellings such as `" 1"` or `"1e0"` give no hint index in the model.
- Engine.Handle: a keyword that names an `Object.prototype` member (`constructor`, `toString`, `__proto__`, `hasOwnProperty` and the like) is answered with a 404 in the model. In the source `flows[keyword]` is truthy for such a keyword, so the 404 branch is skipped and reading `flow.map.__order` throws, and the function fails instead of answering. The client treats both the same way, as an unknown keyword.
- Flows.Lookup: it finds a flow only for the four registered keywords, while the source's `flows[keyword]` also yields the inherited `Object.prototype` members for keywords such as `constructor`. The model has no value for those members.
- Engine.Evaluate: a fractional hint index and the JavaScript object-prototype keys are not modelled. Hint indices are integers, and keys such as `__order`, `__next` or `constructor` cannot name a node. Context values are strings.
