/**
  The inbound-message decision stages of the bot's message handler
  (code/handlers/event_common_action.go).

  Every stage takes the per-event `ActionInfo` and answers `true` ("continue
  with the next stage") or `false` ("stop: the message has been handled or
  dropped"). The stages work on the handler's dedup cache, its session cache
  and the chat platform. Here the two caches are fields of `MessageHandler`,
  and every call the stages make to the session cache or the chat platform is
  appended, in order, to the handler's `trace`.

  Collaborators whose code is not part of this model (the bot's mention test,
  `setDefaultPrompt`, the LLM client, the session's AI mode, the role-tag
  configuration) reach the stages through an `Env` value.

  `Step` specifies what one stage does to the abstract `State`; each
  imperative `Execute...` method is proved against it.
*/
module Actions {
  import opened Wrappers
  import opened Matching

  // ---------------------------------------------------------------------
  // Event context

  /** Where the message came from: a direct chat, a group chat, or anything else. */
  datatype HandlerType = UserHandler | GroupHandler | OtherHandler(name: string)

  /** A mention record of the chat platform; only the mention test looks inside it. */
  datatype Mention = Mention(key: string, id: string, name: string)

  /** The parsed fields of one inbound message. */
  datatype MsgInfo = MsgInfo(
    handlerType: HandlerType,
    msgType: string,
    msgId: string,
    chatId: string,
    qParsed: string,
    fileKey: string,
    imageKey: string,
    imageKeys: seq<string>,
    sessionId: string,
    mention: seq<Mention>)

  /** One entry of a session's history. */
  datatype Msg = Msg(role: string, content: string)

  /** The LLM account balance, passed through to the balance card untouched. */
  datatype BalanceResponse = BalanceResponse(details: string)

  /** The sampling mode a session has chosen, passed through to the completion call. */
  type AIMode = string

  /** What the stages send to the chat platform. */
  datatype Output =
    | ClearCacheCheckCard(sessionId: string, msgId: string)
    | SystemInstructionCard(sessionId: string, msgId: string, instruction: string)
    | HelpCard(sessionId: string, msgId: string)
    | BalanceCard(sessionId: string, balance: BalanceResponse)
    | RoleTagsCard(sessionId: string, msgId: string, tags: seq<string>)
    | AIModeListsCard(sessionId: string, msgId: string, modes: seq<string>)
    | DevTestCard(sessionId: string, msgId: string, modes: seq<string>)
    | Reply(msgId: string, text: string)

  /** One call a stage makes to the session cache or the chat platform. */
  datatype Effect =
    | Sent(output: Output)
    | Stored(sessionId: string, history: seq<Msg>)
    | Dropped(sessionId: string)

  /** The collaborators of the stages whose behaviour this model does not fix. */
  datatype Env = Env(
    mentionsMe: seq<Mention> -> bool,              // judgeIfMentionMe
    defaultPrompt: seq<Msg> -> seq<Msg>,           // setDefaultPrompt
    balance: Result<BalanceResponse>,              // gpt.GetBalance()
    complete: (seq<Msg>, AIMode) -> Result<Msg>,   // gpt.CompletionsTools
    aiModeOf: string -> AIMode,                    // sessionCache.GetAIMode
    roleTags: seq<string>,                         // initialization.GetAllUniqueTags()
    aiModeStrs: seq<string>)                       // openai.AIModeStrs

  const BalanceFailureText: string := "查询余额失败，请稍后再试"
  const SummaryNoticeText: string :=
    "本次对话进入总结外部网页功能，本功能处于内测版本，暂无法通过流式传输，请稍候片刻，本次查询预计花费10~20s。开发版本目前尚不稳定，如长时间无响应请重新请求"
  const SummaryFailurePrefix: string := "🤖️：消息机器人摆烂了，请稍后再试～\n错误信息: "

  // ---------------------------------------------------------------------
  // Abstract state

  /**
    The dedup cache's processed ids, the session cache's histories, and the
    ordered trace of session-cache writes and chat-platform sends.
  */
  datatype State = State(processed: set<string>, sessions: map<string, seq<Msg>>, trace: seq<Effect>)
  {
    /** The history the session cache hands out: empty for an unknown session. */
    function History(sid: string): seq<Msg> {
      if sid in sessions then sessions[sid] else []
    }

    function TagProcessed(id: string): State {
      this.(processed := processed + {id})
    }

    function Clear(sid: string): State {
      this.(sessions := sessions - {sid}, trace := trace + [Dropped(sid)])
    }

    function SetMsg(sid: string, history: seq<Msg>): State {
      this.(sessions := sessions[sid := history], trace := trace + [Stored(sid, history)])
    }

    function Emit(o: Output): State {
      this.(trace := trace + [Sent(o)])
    }
  }

  /** The sends in a trace, in order. */
  function Outbox(t: seq<Effect>): seq<Output> {
    if t == [] then []
    else if t[0].Sent? then [t[0].output] + Outbox(t[1..])
    else Outbox(t[1..])
  }

  /** The outbox holds exactly the outputs of the trace's sends. */
  lemma {:induction false} OutboxMembers(t: seq<Effect>)
    ensures forall o :: o in Outbox(t) <==> Sent(o) in t
  {
    if t != [] {
      OutboxMembers(t[1..]);
      assert t == [t[0]] + t[1..];
    }
  }

  lemma {:induction false} OutboxAppend(a: seq<Effect>, b: seq<Effect>)
    ensures Outbox(a + b) == Outbox(a) + Outbox(b)
  {
    if a != [] {
      assert (a + b)[1..] == a[1..] + b;
      OutboxAppend(a[1..], b);
    } else {
      assert a + b == b;
    }
  }

  // ---------------------------------------------------------------------
  // Stages

  /** The eight commands, each with its two literal aliases. */
  datatype Command = Clear | RolePlay | Help | Balance | RoleList | AIModeSwitch | Dev | Summary

  /** How a command's aliases are matched against the message text. */
  datatype MatchRule = TrimEqual | CutPrefix

  /** The ASCII form and the localized form of each command. */
  function Aliases(c: Command): seq<string> {
    match c
    case Clear => ["/clear", "清除"]
    case RolePlay => ["/system ", "角色扮演 "]
    case Help => ["/help", "帮助"]
    case Balance => ["/balance", "余额"]
    case RoleList => ["/roles", "角色列表"]
    case AIModeSwitch => ["/ai_mode", "发散模式"]
    case Dev => ["/dev_test", "开发模式"]
    case Summary => ["/summary", "总结"]
  }

  /**
    Every command has two aliases. Each is non-empty and starts with a
    character that is not white space; a whole-text alias also ends with one.
  */
  lemma AliasUnpadded(c: Command, i: int)
    requires 0 <= i < |Aliases(c)|
    ensures |Aliases(c)| == 2
    ensures Aliases(c)[i] != [] && !IsSpace(Aliases(c)[i][0])
    ensures Rule(c) == TrimEqual ==> !IsSpace(Aliases(c)[i][|Aliases(c)[i]| - 1])
  {
  }

  function Rule(c: Command): MatchRule {
    match c
    case RolePlay | AIModeSwitch | Dev | Summary => CutPrefix
    case _ => TrimEqual
  }

  /**
    Whether `c` matches the text `q`: `Some(argument)` when it does, where the
    argument is the text after the alias (empty for whole-text commands).
  */
  function Match(c: Command, q: string): Option<string> {
    match Rule(c)
    case TrimEqual => if EitherTrimEqual(q, Aliases(c)) then Some("") else None
    case CutPrefix => EitherCutPrefix(q, Aliases(c))
  }

  /**
    A whole-text command matches exactly when the trimmed text is one of its
    aliases; a prefix command matches exactly when one of its aliases is a
    prefix of the text, and the text is then that alias followed by the argument.
  */
  lemma MatchMeaning(c: Command, q: string)
    ensures Rule(c) == TrimEqual ==> (Match(c, q).Some? <==> Trim(q) in Aliases(c))
    ensures Rule(c) == CutPrefix ==>
      (Match(c, q).Some? <==> exists i :: 0 <= i < |Aliases(c)| && Aliases(c)[i] <= q)
    ensures Rule(c) == CutPrefix && Match(c, q).Some? ==>
      exists i :: 0 <= i < |Aliases(c)| && q == Aliases(c)[i] + Match(c, q).value
  {
    if Rule(c) == TrimEqual {
      TrimEqualMeaning(q, Aliases(c));
    } else {
      CutPrefixNone(q, Aliases(c));
      if Match(c, q).Some? {
        CutPrefixSome(q, Aliases(c));
      }
    }
  }

  /** The stages, one variant per `Action` implementation of the source. */
  datatype Action = ProcessedUnique | ProcessMention | EmptyCheck | Run(command: Command)

  /** A stage's answer and the state it leaves. */
  datatype StepResult = StepResult(cont: bool, after: State)

  /** The mention stage's decision. */
  function MentionPasses(info: MsgInfo, mentionsMe: seq<Mention> -> bool): (pass: bool)
    ensures info.handlerType == UserHandler ==> pass
    ensures info.handlerType == GroupHandler ==> (pass <==> mentionsMe(info.mention))
    ensures info.handlerType.OtherHandler? ==> !pass
  {
    if info.handlerType == UserHandler then true
    else if info.handlerType == GroupHandler then mentionsMe(info.mention)
    else false
  }

  /** The balance stage's answer: the failure reply, or the card with the balance. */
  function BalanceAnswer(sid: string, mid: string, balance: Result<BalanceResponse>): Output {
    match balance
    case Failure(_) => Reply(mid, BalanceFailureText)
    case Success(b) => BalanceCard(sid, b)
  }

  /** What a command does once it has matched, with `arg` the text after its alias. */
  function Perform(c: Command, arg: string, st: State, info: MsgInfo, env: Env): State {
    var sid, mid := info.sessionId, info.msgId;
    match c
    case Clear => st.Emit(ClearCacheCheckCard(sid, mid))
    case RolePlay => st.Clear(sid).SetMsg(sid, [Msg("system", arg)]).Emit(SystemInstructionCard(sid, mid, arg))
    case Help => st.Emit(HelpCard(sid, mid))
    case Balance => st.Emit(BalanceAnswer(sid, mid, env.balance))
    case RoleList => st.Emit(RoleTagsCard(sid, mid, env.roleTags))
    case AIModeSwitch => st.Emit(AIModeListsCard(sid, mid, env.aiModeStrs))
    case Dev => st.Emit(DevTestCard(sid, mid, env.aiModeStrs))
    case Summary =>
      var msg := env.defaultPrompt(st.History(sid)) + [Msg("user", info.qParsed)];
      var noticed := st.Emit(Reply(mid, SummaryNoticeText));
      (match env.complete(msg, env.aiModeOf(sid))
       case Failure(e) => noticed.Emit(Reply(mid, SummaryFailurePrefix + e))
       case Success(completion) => noticed.SetMsg(sid, msg + [completion]).Emit(Reply(mid, completion.content)))
  }

  /** What one stage answers and what it leaves behind. */
  function Step(act: Action, st: State, info: MsgInfo, env: Env): StepResult {
    match act
    case ProcessedUnique =>
      if info.msgId in st.processed then StepResult(false, st)
      else StepResult(true, st.TagProcessed(info.msgId))
    case ProcessMention => StepResult(MentionPasses(info, env.mentionsMe), st)
    case EmptyCheck => StepResult(|info.qParsed| != 0, st)
    case Run(c) =>
      match Match(c, info.qParsed)
      case None => StepResult(true, st)
      case Some(arg) => StepResult(false, Perform(c, arg, st, info, env))
  }

  // ---------------------------------------------------------------------
  // The handler and the eleven stages

  /** The message handler: its dedup cache, its session cache and what it has sent. */
  class MessageHandler {
    var processed: set<string>
    var sessions: map<string, seq<Msg>>
    var trace: seq<Effect>
    const env: Env

    function Snapshot(): State
      reads this
    {
      State(processed, sessions, trace)
    }

    constructor (env: Env)
      ensures Snapshot() == State({}, map[], []) && this.env == env
    {
      processed, sessions, trace := {}, map[], [];
      this.env := env;
    }

    /** msgCache.IfProcessed */
    method IfProcessed(id: string) returns (done: bool)
      ensures done <==> id in processed
    {
      done := id in processed;
    }

    /** msgCache.TagProcessed */
    method TagProcessed(id: string)
      modifies this
      ensures Snapshot() == old(Snapshot()).TagProcessed(id)
    {
      processed := processed + {id};
    }

    /** sessionCache.GetMsg */
    method GetMsg(sid: string) returns (history: seq<Msg>)
      ensures sid in sessions ==> history == sessions[sid]
      ensures sid !in sessions ==> history == []
    {
      history := if sid in sessions then sessions[sid] else [];
    }

    /** sessionCache.Clear */
    method Clear(sid: string)
      modifies this
      ensures Snapshot() == old(Snapshot()).Clear(sid)
    {
      sessions := sessions - {sid};
      trace := trace + [Dropped(sid)];
    }

    /** sessionCache.SetMsg */
    method SetMsg(sid: string, history: seq<Msg>)
      modifies this
      ensures Snapshot() == old(Snapshot()).SetMsg(sid, history)
    {
      sessions := sessions[sid := history];
      trace := trace + [Stored(sid, history)];
    }

    /** A card or reply sent through the chat platform. */
    method Send(o: Output)
      modifies this
      ensures Snapshot() == old(Snapshot()).Emit(o)
    {
      trace := trace + [Sent(o)];
    }
  }

  /** The argument every stage receives. */
  datatype ActionInfo = ActionInfo(handler: MessageHandler, info: MsgInfo)

  /** ProcessedUniqueAction: drop a message id seen before, otherwise remember it. */
  method ExecuteProcessedUnique(a: ActionInfo) returns (cont: bool)
    modifies a.handler
    ensures StepResult(cont, a.handler.Snapshot())
         == Step(ProcessedUnique, old(a.handler.Snapshot()), a.info, a.handler.env)
  {
    var done := a.handler.IfProcessed(a.info.msgId);
    if done {
      return false;
    }
    a.handler.TagProcessed(a.info.msgId);
    return true;
  }

  /** ProcessMentionAction: direct chats pass; group chats pass only when the bot is mentioned. */
  method ExecuteProcessMention(a: ActionInfo) returns (cont: bool)
    ensures StepResult(cont, a.handler.Snapshot()) == Step(ProcessMention, a.handler.Snapshot(), a.info, a.handler.env)
  {
    if a.info.handlerType == UserHandler {
      return true;
    }
    if a.info.handlerType == GroupHandler {
      if a.handler.env.mentionsMe(a.info.mention) {
        return true;
      }
      return false;
    }
    return false;
  }

  /** EmptyAction: drop a message whose parsed text has length zero. */
  method ExecuteEmpty(a: ActionInfo) returns (cont: bool)
    ensures StepResult(cont, a.handler.Snapshot()) == Step(EmptyCheck, a.handler.Snapshot(), a.info, a.handler.env)
  {
    if |a.info.qParsed| == 0 {
      return false;
    }
    return true;
  }

  /** ClearAction: ask for confirmation before the session is cleared. */
  method ExecuteClear(a: ActionInfo) returns (cont: bool)
    modifies a.handler
    ensures StepResult(cont, a.handler.Snapshot())
         == Step(Run(Clear), old(a.handler.Snapshot()), a.info, a.handler.env)
  {
    ghost var before := a.handler.Snapshot();
    if EitherTrimEqual(a.info.qParsed, Aliases(Clear)) {
      var card := ClearCacheCheckCard(a.info.sessionId, a.info.msgId);
      assert Step(Run(Clear), before, a.info, a.handler.env) == StepResult(false, before.Emit(card));
      a.handler.Send(card);
      return false;
    }
    assert Step(Run(Clear), before, a.info, a.handler.env) == StepResult(true, before);
    return true;
  }

  /** RolePlayAction: replace the session's history with one system instruction. */
  method ExecuteRolePlay(a: ActionInfo) returns (cont: bool)
    modifies a.handler
    ensures StepResult(cont, a.handler.Snapshot())
         == Step(Run(RolePlay), old(a.handler.Snapshot()), a.info, a.handler.env)
  {
    var cut := EitherCutPrefix(a.info.qParsed, Aliases(RolePlay));
    if cut.Some? {
      var system := cut.value;
      a.handler.Clear(a.info.sessionId);
      var systemMsg := [Msg("system", system)];
      a.handler.SetMsg(a.info.sessionId, systemMsg);
      a.handler.Send(SystemInstructionCard(a.info.sessionId, a.info.msgId, system));
      return false;
    }
    return true;
  }

  /** HelpAction: send the help card. */
  method ExecuteHelp(a: ActionInfo) returns (cont: bool)
    modifies a.handler
    ensures StepResult(cont, a.handler.Snapshot())
         == Step(Run(Help), old(a.handler.Snapshot()), a.info, a.handler.env)
  {
    ghost var before := a.handler.Snapshot();
    if EitherTrimEqual(a.info.qParsed, Aliases(Help)) {
      var card := HelpCard(a.info.sessionId, a.info.msgId);
      assert Step(Run(Help), before, a.info, a.handler.env) == StepResult(false, before.Emit(card));
      a.handler.Send(card);
      return false;
    }
    assert Step(Run(Help), before, a.info, a.handler.env) == StepResult(true, before);
    return true;
  }

  /** BalanceAction: query the LLM account balance and report it or the failure. */
  method ExecuteBalance(a: ActionInfo) returns (cont: bool)
    modifies a.handler
    ensures StepResult(cont, a.handler.Snapshot())
         == Step(Run(Balance), old(a.handler.Snapshot()), a.info, a.handler.env)
  {
    ghost var before := a.handler.Snapshot();
    if EitherTrimEqual(a.info.qParsed, Aliases(Balance)) {
      ghost var answer := BalanceAnswer(a.info.sessionId, a.info.msgId, a.handler.env.balance);
      assert Step(Run(Balance), before, a.info, a.handler.env) == StepResult(false, before.Emit(answer));
      var balanceResp := a.handler.env.balance;
      if balanceResp.Failure? {
        a.handler.Send(Reply(a.info.msgId, BalanceFailureText));
        return false;
      }
      a.handler.Send(BalanceCard(a.info.sessionId, balanceResp.value));
      return false;
    }
    assert Step(Run(Balance), before, a.info, a.handler.env) == StepResult(true, before);
    return true;
  }

  /** RoleListAction: send the card listing every role tag. */
  method ExecuteRoleList(a: ActionInfo) returns (cont: bool)
    modifies a.handler
    ensures StepResult(cont, a.handler.Snapshot())
         == Step(Run(RoleList), old(a.handler.Snapshot()), a.info, a.handler.env)
  {
    ghost var before := a.handler.Snapshot();
    if EitherTrimEqual(a.info.qParsed, Aliases(RoleList)) {
      var tags := a.handler.env.roleTags;
      var card := RoleTagsCard(a.info.sessionId, a.info.msgId, tags);
      assert Step(Run(RoleList), before, a.info, a.handler.env) == StepResult(false, before.Emit(card));
      a.handler.Send(card);
      return false;
    }
    assert Step(Run(RoleList), before, a.info, a.handler.env) == StepResult(true, before);
    return true;
  }

  /** AIModeAction: send the card listing the AI modes. */
  method ExecuteAIMode(a: ActionInfo) returns (cont: bool)
    modifies a.handler
    ensures StepResult(cont, a.handler.Snapshot())
         == Step(Run(AIModeSwitch), old(a.handler.Snapshot()), a.info, a.handler.env)
  {
    var cut := EitherCutPrefix(a.info.qParsed, Aliases(AIModeSwitch));
    if cut.Some? {
      a.handler.Send(AIModeListsCard(a.info.sessionId, a.info.msgId, a.handler.env.aiModeStrs));
      return false;
    }
    return true;
  }

  /** DevAction: send the developer test card. */
  method ExecuteDev(a: ActionInfo) returns (cont: bool)
    modifies a.handler
    ensures StepResult(cont, a.handler.Snapshot())
         == Step(Run(Dev), old(a.handler.Snapshot()), a.info, a.handler.env)
  {
    var cut := EitherCutPrefix(a.info.qParsed, Aliases(Dev));
    if cut.Some? {
      a.handler.Send(DevTestCard(a.info.sessionId, a.info.msgId, a.handler.env.aiModeStrs));
      return false;
    }
    return true;
  }

  /**
    SummaryAction: announce the slow call, ask the LLM with the session's
    history plus the message, then store and reply with its answer.
  */
  method ExecuteSummary(a: ActionInfo) returns (cont: bool)
    modifies a.handler
    ensures StepResult(cont, a.handler.Snapshot())
         == Step(Run(Summary), old(a.handler.Snapshot()), a.info, a.handler.env)
  {
    var cut := EitherCutPrefix(a.info.qParsed, Aliases(Summary));
    if cut.Some? {
      var msg := a.handler.GetMsg(a.info.sessionId);
      msg := a.handler.env.defaultPrompt(msg);
      msg := msg + [Msg("user", a.info.qParsed)];
      var aiMode := a.handler.env.aiModeOf(a.info.sessionId);
      a.handler.Send(Reply(a.info.msgId, SummaryNoticeText));
      var completions := a.handler.env.complete(msg, aiMode);
      if completions.Failure? {
        a.handler.Send(Reply(a.info.msgId, SummaryFailurePrefix + completions.error));
        return false;
      }
      msg := msg + [completions.value];
      a.handler.SetMsg(a.info.sessionId, msg);
      a.handler.Send(Reply(a.info.msgId, completions.value.content));
      return false;
    }
    return true;
  }

  /** Dispatch to the stage `act` names. */
  method Execute(act: Action, a: ActionInfo) returns (cont: bool)
    modifies a.handler
    ensures StepResult(cont, a.handler.Snapshot()) == Step(act, old(a.handler.Snapshot()), a.info, a.handler.env)
  {
    match act
    case ProcessedUnique => cont := ExecuteProcessedUnique(a);
    case ProcessMention => cont := ExecuteProcessMention(a);
    case EmptyCheck => cont := ExecuteEmpty(a);
    case Run(c) =>
      match c
      case Clear => cont := ExecuteClear(a);
      case RolePlay => cont := ExecuteRolePlay(a);
      case Help => cont := ExecuteHelp(a);
      case Balance => cont := ExecuteBalance(a);
      case RoleList => cont := ExecuteRoleList(a);
      case AIModeSwitch => cont := ExecuteAIMode(a);
      case Dev => cont := ExecuteDev(a);
      case Summary => cont := ExecuteSummary(a);
  }
}
