/** What each stage promises, stated over `Step` and `Perform`. */
module StageProperties {
  import opened Wrappers
  import opened Matching
  import opened Actions

  /**
    The dedup stage lets an id through once: it continues exactly when the id
    is new, remembering it, and a second look at the same id stops and changes
    nothing.
  */
  lemma DedupOnce(st: State, info: MsgInfo, again: MsgInfo, env: Env, env': Env)
    requires again.msgId == info.msgId
    ensures var r := Step(ProcessedUnique, st, info, env);
      && (r.cont <==> info.msgId !in st.processed)
      && (!r.cont ==> r.after == st)
      && (r.cont ==> r.after == st.(processed := st.processed + {info.msgId}))
      && Step(ProcessedUnique, r.after, again, env') == StepResult(false, r.after)
  {
  }

  /**
    The mention stage: direct chats always pass, group chats pass exactly when
    the bot is mentioned, any other origin is dropped; it changes nothing.
  */
  lemma MentionGate(st: State, info: MsgInfo, env: Env)
    ensures var r := Step(ProcessMention, st, info, env);
      && r.after == st
      && (info.handlerType == UserHandler ==> r.cont)
      && (info.handlerType == GroupHandler ==> (r.cont <==> env.mentionsMe(info.mention)))
      && (info.handlerType.OtherHandler? ==> !r.cont)
  {
  }

  /**
    The empty stage looks at the raw length only: text made of white space
    passes it, yet matches no command, so it falls through to the default flow.
  */
  lemma {:induction false} WhitespaceFallsThrough(c: Command, st: State, info: MsgInfo, env: Env)
    requires info.qParsed != [] && AllSpace(info.qParsed)
    ensures Step(EmptyCheck, st, info, env) == StepResult(true, st)
    ensures Step(Run(c), st, info, env) == StepResult(true, st)
  {
    var q := info.qParsed;
    TrimAllSpace(q);
    MatchMeaning(c, q);
    AliasUnpadded(c, 0);
    AliasUnpadded(c, 1);
    var x := Aliases(c);
    assert x == [x[0], x[1]];
    assert IsSpace(q[0]);
  }

  /** The empty stage stops exactly on zero-length text and changes nothing. */
  lemma EmptyGate(st: State, info: MsgInfo, env: Env)
    ensures var r := Step(EmptyCheck, st, info, env);
      r.after == st && (!r.cont <==> info.qParsed == [])
  {
  }

  /**
    A command stage continues exactly when none of its aliases matches, and
    then changes nothing; when it stops it leaves the dedup cache alone, only
    appends to the trace, and ends that trace with a send.
  */
  lemma CommandStage(c: Command, st: State, info: MsgInfo, env: Env)
    ensures var r := Step(Run(c), st, info, env);
      && (r.cont <==> Match(c, info.qParsed).None?)
      && (r.cont ==> r.after == st)
      && (!r.cont ==> && r.after.processed == st.processed
                      && |r.after.trace| > |st.trace|
                      && r.after.trace[..|st.trace|] == st.trace
                      && r.after.trace[|r.after.trace| - 1].Sent?)
  {
    var r := Step(Run(c), st, info, env);
    var m := Match(c, info.qParsed);
    if m.Some? {
      assert r == StepResult(false, Perform(c, m.value, st, info, env));
      CommandResponses(c, m.value, st, info, env);
    } else {
      assert r == StepResult(true, st);
    }
  }

  /** Clear only asks for confirmation: one confirmation card, the sessions untouched. */
  lemma ClearAsksConfirmation(arg: string, st: State, info: MsgInfo, env: Env)
    ensures var after := Perform(Clear, arg, st, info, env);
      && after.sessions == st.sessions
      && after.trace == st.trace + [Sent(ClearCacheCheckCard(info.sessionId, info.msgId))]
  {
  }

  /**
    Role play: the session's history becomes exactly one system message holding
    the text after the alias, other sessions keep theirs, and the history is
    stored before the instruction card is sent.
  */
  lemma RolePlaySeedsInstruction(arg: string, st: State, info: MsgInfo, env: Env)
    ensures var sid := info.sessionId;
      var after := Perform(RolePlay, arg, st, info, env);
      && after.History(sid) == [Msg("system", arg)]
      && (forall other :: other != sid ==> after.History(other) == st.History(other))
      && after.sessions.Keys == st.sessions.Keys + {sid}
      && after.trace == st.trace + [Dropped(sid), Stored(sid, [Msg("system", arg)]),
                                    Sent(SystemInstructionCard(sid, info.msgId, arg))]
  {
  }

  /**
    Balance: a failed query is answered by one failure reply and no card; a
    successful one by one balance card and no reply. The sessions are untouched.
  */
  lemma BalanceReports(arg: string, st: State, info: MsgInfo, env: Env)
    ensures var after := Perform(Balance, arg, st, info, env);
      && after.sessions == st.sessions
      && (env.balance.Failure? ==> after.trace == st.trace + [Sent(Reply(info.msgId, BalanceFailureText))])
      && (env.balance.Success? ==> after.trace == st.trace + [Sent(BalanceCard(info.sessionId, env.balance.value))])
  {
  }

  /**
    Summary: the notice is sent first. On failure one error reply follows and
    the sessions are untouched; on success the stored history is the default-
    prompted old one, the whole message text as a user entry, and the
    completion, stored before the completion is replied.
  */
  lemma SummaryExchange(arg: string, st: State, info: MsgInfo, env: Env)
    ensures var sid, mid := info.sessionId, info.msgId;
      var msg := env.defaultPrompt(st.History(sid)) + [Msg("user", info.qParsed)];
      var result := env.complete(msg, env.aiModeOf(sid));
      var after := Perform(Summary, arg, st, info, env);
      && (result.Failure? ==>
            && after.sessions == st.sessions
            && after.trace == st.trace + [Sent(Reply(mid, SummaryNoticeText)),
                                          Sent(Reply(mid, SummaryFailurePrefix + result.error))])
      && (result.Success? ==>
            && after.History(sid) == msg + [result.value]
            && (forall other :: other != sid ==> after.History(other) == st.History(other))
            && after.trace == st.trace + [Sent(Reply(mid, SummaryNoticeText)),
                                          Stored(sid, msg + [result.value]),
                                          Sent(Reply(mid, result.value.content))])
  {
  }

  /** Appending effects that end with a send adds their sends to the outbox. */
  lemma {:induction false} Appended(st: State, added: seq<Effect>, after: State)
    requires after.trace == st.trace + added && added != [] && added[|added| - 1].Sent?
    ensures |after.trace| > |st.trace| && after.trace[..|st.trace|] == st.trace
    ensures after.trace[|after.trace| - 1].Sent?
    ensures |Outbox(after.trace)| == |Outbox(st.trace)| + |Outbox(added)|
  {
    OutboxAppend(st.trace, added);
  }

  /** Summary's effects: the notice, then the error reply, or the stored exchange and the answer. */
  lemma SummaryAppends(arg: string, st: State, info: MsgInfo, env: Env)
    ensures var after := Perform(Summary, arg, st, info, env);
      exists added: seq<Effect> :: after.trace == st.trace + added && added != [] && added[|added| - 1].Sent?
                      && |Outbox(added)| == 2
  {
    var sid, mid := info.sessionId, info.msgId;
    var msg := env.defaultPrompt(st.History(sid)) + [Msg("user", info.qParsed)];
    var result := env.complete(msg, env.aiModeOf(sid));
    var added: seq<Effect>;
    if result.Failure? {
      added := [Sent(Reply(mid, SummaryNoticeText)), Sent(Reply(mid, SummaryFailurePrefix + result.error))];
      assert Outbox(added[1..]) == [added[1].output];
    } else {
      added := [Sent(Reply(mid, SummaryNoticeText)), Stored(sid, msg + [result.value]),
                Sent(Reply(mid, result.value.content))];
      assert Outbox(added[1..]) == Outbox(added[2..]) == [added[2].output];
    }
    assert Perform(Summary, arg, st, info, env).trace == st.trace + added;
  }

  /** Role play's effects: the session dropped, the instruction stored, the card sent. */
  lemma RolePlayAppends(arg: string, st: State, info: MsgInfo, env: Env)
    ensures var after := Perform(RolePlay, arg, st, info, env);
      exists added: seq<Effect> :: after.trace == st.trace + added && added != [] && added[|added| - 1].Sent?
                      && |Outbox(added)| == 1
  {
    var sid, mid := info.sessionId, info.msgId;
    var added := [Dropped(sid), Stored(sid, [Msg("system", arg)]), Sent(SystemInstructionCard(sid, mid, arg))];
    assert Outbox(added) == Outbox(added[1..]) == Outbox(added[2..]) == [added[2].output];
    assert Perform(RolePlay, arg, st, info, env).trace == st.trace + added;
  }

  /**
    A matched command sends exactly one card or reply, except Summary, which
    sends its notice and then the answer or the error; it leaves the dedup
    cache alone, only appends to the trace, and ends with a send.
  */
  lemma {:induction false} CommandResponses(c: Command, arg: string, st: State, info: MsgInfo, env: Env)
    ensures var after := Perform(c, arg, st, info, env);
      && after.processed == st.processed
      && |after.trace| > |st.trace|
      && after.trace[..|st.trace|] == st.trace
      && after.trace[|after.trace| - 1].Sent?
      && |Outbox(after.trace)| == |Outbox(st.trace)| + (if c == Summary then 2 else 1)
  {
    var after := Perform(c, arg, st, info, env);
    if c == Summary {
      SummaryAppends(arg, st, info, env);
      var added: seq<Effect> :| after.trace == st.trace + added && added != [] && added[|added| - 1].Sent? && |Outbox(added)| == 2;
      Appended(st, added, after);
    } else if c == RolePlay {
      RolePlayAppends(arg, st, info, env);
      var added: seq<Effect> :| after.trace == st.trace + added && added != [] && added[|added| - 1].Sent? && |Outbox(added)| == 1;
      Appended(st, added, after);
    } else {
      var sid, mid := info.sessionId, info.msgId;
      var o: Output;
      match c {
        case Clear => o := ClearCacheCheckCard(sid, mid);
        case Help => o := HelpCard(sid, mid);
        case Balance =>
          o := BalanceAnswer(sid, mid, env.balance);
        case RoleList => o := RoleTagsCard(sid, mid, env.roleTags);
        case AIModeSwitch => o := AIModeListsCard(sid, mid, env.aiModeStrs);
        case Dev => o := DevTestCard(sid, mid, env.aiModeStrs);
      }
      assert after == st.Emit(o);
      Appended(st, [Sent(o)], after);
    }
  }
}
