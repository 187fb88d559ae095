# Inbound-message stages of the Feishu/Lark OpenAI bot

This project models, in Dafny, the decision stages that the bot's message
handler (`code/handlers/event_common_action.go`) runs on every inbound
message before any default LLM chat flow. Each stage is an `Action` whose
`Execute` answers `true` ("continue with the next stage") or `false` ("stop:
handled or dropped"):

- `ProcessedUniqueAction`: drops a message id seen before and otherwise remembers it (dedup cache);
- `ProcessMentionAction`: direct chats pass, group chats pass only when the bot is mentioned, anything else is dropped;
- `EmptyAction`: drops a message whose parsed text has length zero;
- eight command stages (`Clear`, `RolePlay`, `Help`, `Balance`, `RoleList`,
  `AIMode`, `Dev`, `Summary`): each matches its two literal aliases (the ASCII
  form and the Chinese form) against the parsed text; on a match it does its
  work on the session cache and the chat platform and stops, otherwise it
  continues and does nothing.

Layout:

- `wrappers.dfy` (`Wrappers`): `Option` and `Result`.
- `matching.dfy` (`Matching`): the two alias matchers `EitherTrimEqual` and
  `EitherCutPrefix`, and the white-space trimming they rely on.
- `actions.dfy` (`Actions`): the event context (`MsgInfo`, `ActionInfo`),
  the outputs and the collaborators (`Env`), the abstract `State` (the
  processed ids, the session histories, and an ordered `trace` of
  session-cache writes and chat-platform sends), the command table
  (`Aliases`, `Rule`, `Match`), the specification of one stage (`Step`,
  `Perform`), the `MessageHandler` class holding the two caches and the trace,
  and the eleven imperative `Execute...` methods, each proved against `Step`.
- `routing.dfy` (`Routing`): no text matches two commands, plus concrete
  routing examples.
- `stage_properties.dfy` (`StageProperties`): what each stage promises.
- `pipeline.dfy` (`Pipeline`): a runner that runs stages until the first
  "stop". The runner is not in the modelled file. It is a modelling aid
  used to state chain-level properties, and every chain lemma holds for any
  order of the command stages.

Assumptions about code that is not part of this model:

- `utils.EitherTrimEqual(s, a, b)` holds when `s` with its surrounding white
  space removed equals `a` or `b`. White space is what Go's `unicode.IsSpace`
  reports, as `strings.TrimSpace` removes it.
- `utils.EitherCutPrefix(s, a, b)` holds when `s` starts with `a` or `b`, tried
  in that order. It returns the rest of `s` after the first alias that matched.
- `judgeIfMentionMe`, `setDefaultPrompt`, `GetBalance`, `CompletionsTools`,
  `GetAIMode`, `GetAllUniqueTags` and `AIModeStrs` are fields of `Env`. They are
  functions or values the model does not constrain, so every proof holds for
  all of them, including both the error and the success result of each LLM call.
- The session cache hands out an empty history for a session it does not know.
- The session cache keeps exactly the history last given to `SetMsg`, and
  `Clear` forgets the session's history. The `History` claims of
  `StageProperties.RolePlaySeedsInstruction` and
  `StageProperties.SummaryExchange` rest on this.
- `GetAIMode` (`Env.aiModeOf`) depends on the session id only, not on the
  session cache's state, so the `sessionCache.Clear` of line 97 does not
  change the AI mode a later summary uses.

## Model

| member | source | states |
|---|---|---|
| Matching.TrimLeft | code/handlers/event_common_action.go:82-83 | the result is a suffix of the text and does not start with white space |
| Matching.TrimRight | code/handlers/event_common_action.go:82-83 | the result is a prefix of the text and does not end with white space |
| Matching.TrimLeftRemovesSpace | code/handlers/event_common_action.go:82-83 | everything trimmed from the left is white space |
| Matching.TrimRightRemovesSpace | code/handlers/event_common_action.go:82-83 | everything trimmed from the right is white space |
| Matching.TrimUnpadded | code/handlers/event_common_action.go:82-83 | text that does not start with white space is its trimmed form followed by white space only |
| Matching.TrimAllSpace | code/handlers/event_common_action.go:82-83 | text made only of white space trims to the empty text |
| Matching.TrimSurrounded | code/handlers/event_common_action.go:82-83 | a text that neither starts nor ends with white space, with one white-space character added on each side, trims back to itself |
| Matching.TrimEqualMeaning | code/handlers/event_common_action.go:82-83 | a whole-text command matches exactly when the trimmed text is one of its aliases |
| Matching.EitherCutPrefix | code/handlers/event_common_action.go:95-96 | what a prefix match returns is a suffix of the text |
| Matching.CutPrefixNone | code/handlers/event_common_action.go:95-96 | a prefix match fails exactly when no alias is a prefix of the text |
| Matching.CutPrefixSome | code/handlers/event_common_action.go:95-96 | a successful prefix match returns the text after the first alias that is a prefix of it; no earlier alias is a prefix |
| Actions.MatchMeaning | code/handlers/event_common_action.go:82-187 | the command table: whole-text commands (clear, help, balance, roles) match exactly when the trimmed text is an alias; prefix commands (system, ai_mode, dev_test, summary) match exactly when an alias is a prefix, and the text is then that alias followed by the argument |
| Actions.AliasUnpadded | code/handlers/event_common_action.go:82-187 | every command has two aliases; each is non-empty and does not start with white space, and a whole-text alias does not end with white space either |
| Actions.MentionPasses | code/handlers/event_common_action.go:49-62 | direct chats pass; group chats pass exactly when the bot is mentioned; any other origin is dropped |
| Actions.MessageHandler.IfProcessed | code/handlers/event_common_action.go:39 | answers whether the id is in the dedup cache |
| Actions.MessageHandler.TagProcessed | code/handlers/event_common_action.go:42 | adds the id to the dedup cache and changes nothing else |
| Actions.MessageHandler.GetMsg | code/handlers/event_common_action.go:188 | returns the session's stored history, empty for an unknown session |
| Actions.MessageHandler.Clear | code/handlers/event_common_action.go:97 | removes the session's history and records the removal in the trace |
| Actions.MessageHandler.SetMsg | code/handlers/event_common_action.go:101 | stores the history for the session and records the write in the trace |
| Actions.MessageHandler.Send | code/handlers/event_common_action.go:84-85 | records the card or reply as the next effect in the trace and changes nothing else |
| Actions.OutboxMembers | code/handlers/event_common_action.go:84-85 | the outbox, the sends read off the trace, holds exactly the outputs of the trace's send effects |
| Actions.ExecuteProcessedUnique | code/handlers/event_common_action.go:38-44 | the dedup stage does what `Step` specifies for it |
| Actions.ExecuteProcessMention | code/handlers/event_common_action.go:49-62 | the mention stage answers `MentionPasses` and changes nothing |
| Actions.ExecuteEmpty | code/handlers/event_common_action.go:67-76 | the empty stage continues exactly when the text has non-zero length and changes nothing |
| Actions.ExecuteClear | code/handlers/event_common_action.go:81-89 | the clear stage does what `Step` specifies for it |
| Actions.ExecuteRolePlay | code/handlers/event_common_action.go:94-107 | the role-play stage clears, stores and sends in that order, as `Step` specifies |
| Actions.ExecuteHelp | code/handlers/event_common_action.go:112-119 | the help stage does what `Step` specifies for it |
| Actions.ExecuteBalance | code/handlers/event_common_action.go:124-136 | the balance stage does what `Step` specifies for both results of the balance query |
| Actions.ExecuteRoleList | code/handlers/event_common_action.go:141-156 | the role-list stage does what `Step` specifies for it |
| Actions.ExecuteAIMode | code/handlers/event_common_action.go:161-168 | the AI-mode stage does what `Step` specifies for it |
| Actions.ExecuteDev | code/handlers/event_common_action.go:173-180 | the developer-test stage does what `Step` specifies for it |
| Actions.ExecuteSummary | code/handlers/event_common_action.go:185-212 | the summary stage does what `Step` specifies for both results of the completion call |
| Actions.Execute | code/handlers/event_common_action.go:31-33 | every stage answers and changes the state as `Step` specifies |
| Routing.AliasesApart | code/handlers/event_common_action.go:82-187 | no alias of one command is a prefix of an alias of another |
| Routing.SharedAlias | code/handlers/event_common_action.go:82-187 | two commands matching the same text have aliases that are prefixes of one another |
| Routing.MixedShared | code/handlers/event_common_action.go:82-187 | a whole-text command and a prefix command that match the same text have aliases that are prefixes of one another |
| Routing.CommandsExclusive | code/handlers/event_common_action.go:82-187 | no text matches two different commands |
| Routing.EmptyMatchesNothing | code/handlers/event_common_action.go:82-187 | the empty text matches no command |
| Routing.ClearSelected | code/handlers/event_common_action.go:82-83 | "/clear" selects the clear command and no other |
| Routing.BareAliasSelected | code/handlers/event_common_action.go:82-83 | every whole-text alias on its own, such as "清除", selects its own command and no other |
| Routing.PaddedAliasSelected | code/handlers/event_common_action.go:82-83 | a whole-text alias with one white-space character on each side, such as " 清除\n", selects its own command and no other |
| Routing.RolePlayNeedsSpace | code/handlers/event_common_action.go:95-96 | "/system" without its trailing space selects no command |
| Routing.PirateInstruction | code/handlers/event_common_action.go:95-99 | the role-play argument of "/system You are a pirate." is "You are a pirate." |
| Routing.AIModeBarePrefix | code/handlers/event_common_action.go:162-163 | "/ai_modeX" selects the AI-mode command, because its alias is a bare prefix |
| StageProperties.DedupOnce | code/handlers/event_common_action.go:38-44 | the dedup stage continues exactly when the id is new and remembers it then; a duplicate stops with nothing changed; a second look at the same id stops |
| StageProperties.MentionGate | code/handlers/event_common_action.go:49-62 | direct chats pass whatever they mention; group chats pass exactly when the bot is mentioned; other origins stop; no state changes |
| StageProperties.EmptyGate | code/handlers/event_common_action.go:67-76 | the empty stage stops exactly on zero-length text and sends nothing |
| StageProperties.WhitespaceFallsThrough | code/handlers/event_common_action.go:67-76 | text made only of white space passes the empty stage and every command stage unchanged |
| StageProperties.CommandStage | code/handlers/event_common_action.go:81-211 | a command stage continues exactly when its aliases do not match, and then changes nothing; when it stops the dedup cache is untouched, the trace only grows, and it ends with a send |
| StageProperties.ClearAsksConfirmation | code/handlers/event_common_action.go:81-89 | a matched clear sends one confirmation card and leaves every session as it was |
| StageProperties.RolePlaySeedsInstruction | code/handlers/event_common_action.go:94-107 | a matched role play leaves the session with exactly one system message holding the argument, leaves other sessions alone, and stores before it sends the instruction card |
| StageProperties.BalanceReports | code/handlers/event_common_action.go:124-136 | a failed balance query yields one failure reply and no card; a successful one yields one balance card and no reply; sessions untouched |
| StageProperties.SummaryExchange | code/handlers/event_common_action.go:185-212 | the notice goes first; on failure one error reply with the error text and no session change; on success the stored history is the default-prompted old history, the whole text as a user entry and the completion, stored before the completion is replied |
| StageProperties.CommandResponses | code/handlers/event_common_action.go:81-211 | a matched command sends exactly one card or reply, except summary, which sends two |
| Pipeline.RunProcessed | code/handlers/event_common_action.go:38-44 | a run only ever adds the message's own id to the dedup cache |
| Pipeline.NoCommandMatches | code/handlers/event_common_action.go:81-211 | when no command matches, every command stage continues and nothing changes |
| Pipeline.OneCommandMatches | code/handlers/event_common_action.go:81-211 | the command stages, in any order, stop at the matching command and do exactly its work |
| Pipeline.Duplicate | code/handlers/event_common_action.go:38-44 | an id already processed is dropped by the first stage with nothing changed |
| Pipeline.Redelivery | code/handlers/event_common_action.go:38-44 | after any run, the same message id delivered again is dropped with nothing changed |
| Pipeline.NotAddressed | code/handlers/event_common_action.go:49-62 | a new message not addressed to the bot reaches no command: only its id is remembered and nothing is sent |
| Pipeline.ThroughGates | code/handlers/event_common_action.go:38-76 | a new, admitted, non-empty message reaches the commands with only its id remembered |
| Pipeline.FallThrough | code/handlers/event_common_action.go:81-211 | a new, admitted message no command matches passes every stage unhandled, with only its id remembered |
| Pipeline.Routed | code/handlers/event_common_action.go:81-211 | a new, admitted message some command matches is handled by that command alone, in any order of the commands |
| Pipeline.RunActions | code/handlers/event_common_action.go:31-33 | running stages in order until one answers "stop" yields what `RunSpec` specifies |

## Left out

- Nil pointers: `msgId` (lines 39, 42, 70) and `sessionId` (lines 97, 101, 188, 196, 206) are `*string` in the source and are dereferenced without a check. They are plain strings here, so the panic on a nil id is not modelled. `chatId` is not used by the modelled stages: its only use, at line 69, is commented out.
- `context.Context` and the `fmt.Println` logging (lines 70 and 198) have no effect on the outcome and are dropped.
- Concurrency: the dedup check and mark (lines 39-42) are two separate cache calls. The model runs them one after the other, so a race between concurrent redeliveries of one id is not captured.
- Expiry of dedup-cache and session-cache entries is not in the modelled file. The processed set never forgets an id.
- Card payloads and wire formats: each send appears only as a tagged `Output` in the trace.
- The LLM client is not modelled: the balance result is one value per handler, and the completion is a function of the history and the AI mode. A real call may answer differently each time; the proofs hold for every such value and function.
- The AI mode is treated as an opaque value that is passed through to the completion call.
- The bodies of `utils.EitherTrimEqual`, `utils.EitherCutPrefix`, `judgeIfMentionMe` and `setDefaultPrompt` are not part of this model. They are abstracted as stated above.
- Go strings are byte sequences, and these are character sequences. Zero length and prefix matching agree for valid UTF-8 text.
- The order of the stages in the handler's runner is not part of this model. The chain lemmas hold for any order of the command stages after the dedup, mention and empty-text stages.

## Where the code and the intended behaviour differ

The model follows the code in each case:

- Empty text is meant to be dropped. The empty-text stage checks raw length and does not trim, so text made only of white space passes it and matches no command; it reaches the default flow (`StageProperties.WhitespaceFallsThrough`).
- A stop is meant to produce exactly one response. The summary command sends two: the "working" notice, then the answer or the error (`StageProperties.CommandResponses`). The dedup, mention and empty-text stages stop with no response.
- A summary is meant to add exactly one user entry and one assistant entry to the history. In the code the old history first goes through `setDefaultPrompt`, which may add a system prompt, and the stored entry is whatever message the completion call returned (`StageProperties.SummaryExchange`).
