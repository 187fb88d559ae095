/**
  A runner that chains the stages: run them in order and stop at the first
  that answers "stop". The runner itself lives outside the handler file, so
  this module is a modelling aid for stating what the stages guarantee
  together, for any order of the command stages.
*/
module Pipeline {
  import opened Wrappers
  import opened Matching
  import opened Actions
  import opened Routing
  import opened StageProperties

  /** Whether some stage stopped, and the state the run leaves. */
  datatype RunResult = RunResult(handled: bool, after: State)

  /** Run `acts` in order until the first one that stops. */
  function RunSpec(acts: seq<Action>, st: State, info: MsgInfo, env: Env): RunResult
    decreases |acts|
  {
    if acts == [] then RunResult(false, st)
    else
      var r := Step(acts[0], st, info, env);
      if !r.cont then RunResult(true, r.after) else RunSpec(acts[1..], r.after, info, env)
  }

  /** The command stages for `cmds`, in that order. */
  function CommandStages(cmds: seq<Command>): (acts: seq<Action>)
    ensures |acts| == |cmds| && forall i :: 0 <= i < |cmds| ==> acts[i] == Run(cmds[i])
  {
    seq(|cmds|, i requires 0 <= i < |cmds| => Run(cmds[i]))
  }

  /** The gating stages, then the empty-text stage, then the commands in the order given. */
  function Stages(cmds: seq<Command>): seq<Action> {
    [ProcessedUnique, ProcessMention, EmptyCheck] + CommandStages(cmds)
  }

  /** Every stage's effect on the dedup cache is at most adding the message id. */
  lemma {:induction false} RunProcessed(acts: seq<Action>, st: State, info: MsgInfo, env: Env)
    ensures var after := RunSpec(acts, st, info, env).after;
      st.processed <= after.processed <= st.processed + {info.msgId}
    decreases |acts|
  {
    if acts != [] {
      var r := Step(acts[0], st, info, env);
      if acts[0].Run? {
        CommandStage(acts[0].command, st, info, env);
      }
      if r.cont {
        RunProcessed(acts[1..], r.after, info, env);
      }
    }
  }

  /** Commands none of which matches the text all continue and change nothing. */
  lemma {:induction false} NoCommandMatches(cmds: seq<Command>, st: State, info: MsgInfo, env: Env)
    requires forall c :: c in cmds ==> Match(c, info.qParsed).None?
    ensures RunSpec(CommandStages(cmds), st, info, env) == RunResult(false, st)
    decreases |cmds|
  {
    if cmds != [] {
      assert CommandStages(cmds)[1..] == CommandStages(cmds[1..]);
      NoCommandMatches(cmds[1..], st, info, env);
    }
  }

  /** The command stages stop at the one command that matches, whatever their order. */
  lemma {:induction false} OneCommandMatches(cmds: seq<Command>, c: Command, arg: string, st: State, info: MsgInfo, env: Env)
    requires c in cmds && Match(c, info.qParsed) == Some(arg)
    ensures RunSpec(CommandStages(cmds), st, info, env) == RunResult(true, Perform(c, arg, st, info, env))
    decreases |cmds|
  {
    assert CommandStages(cmds)[1..] == CommandStages(cmds[1..]);
    if cmds[0] != c {
      if Match(cmds[0], info.qParsed).Some? {
        CommandsExclusive(cmds[0], c, info.qParsed);
      }
      OneCommandMatches(cmds[1..], c, arg, st, info, env);
    }
  }

  /** A message id already processed is dropped at once and nothing changes. */
  lemma Duplicate(cmds: seq<Command>, st: State, info: MsgInfo, env: Env)
    requires info.msgId in st.processed
    ensures RunSpec(Stages(cmds), st, info, env) == RunResult(true, st)
  {
  }

  /**
    Delivering the same message again after any run, whatever the text, the
    collaborators and the commands, is dropped with no effect.
  */
  lemma {:induction false} Redelivery(cmds: seq<Command>, cmds': seq<Command>, st: State,
                                      info: MsgInfo, again: MsgInfo, env: Env, env': Env)
    requires again.msgId == info.msgId
    ensures var first := RunSpec(Stages(cmds), st, info, env);
      RunSpec(Stages(cmds'), first.after, again, env') == RunResult(true, first.after)
  {
    var first := RunSpec(Stages(cmds), st, info, env);
    if info.msgId !in st.processed {
      var tagged := st.TagProcessed(info.msgId);
      assert Stages(cmds)[1..] == [ProcessMention, EmptyCheck] + CommandStages(cmds);
      RunProcessed(Stages(cmds)[1..], tagged, info, env);
    }
    assert info.msgId in first.after.processed;
  }

  /** A message not addressed to the bot is remembered and dropped silently. */
  lemma NotAddressed(cmds: seq<Command>, st: State, info: MsgInfo, env: Env)
    requires info.msgId !in st.processed
    requires !MentionPasses(info, env.mentionsMe)
    ensures RunSpec(Stages(cmds), st, info, env) == RunResult(true, st.TagProcessed(info.msgId))
  {
  }

  /**
    A new message that the mention stage admits and whose text is not empty
    passes every gate: only its id is remembered before the commands run.
  */
  lemma ThroughGates(cmds: seq<Command>, st: State, info: MsgInfo, env: Env)
    requires info.msgId !in st.processed && MentionPasses(info, env.mentionsMe) && info.qParsed != []
    ensures RunSpec(Stages(cmds), st, info, env) == RunSpec(CommandStages(cmds), st.TagProcessed(info.msgId), info, env)
  {
    var tagged := st.TagProcessed(info.msgId);
    var rest := [ProcessMention, EmptyCheck] + CommandStages(cmds);
    assert Stages(cmds)[1..] == rest;
    assert rest[1..] == [EmptyCheck] + CommandStages(cmds);
    assert ([EmptyCheck] + CommandStages(cmds))[1..] == CommandStages(cmds);
    calc {
      RunSpec(Stages(cmds), st, info, env);
      RunSpec(rest, tagged, info, env);
      RunSpec([EmptyCheck] + CommandStages(cmds), tagged, info, env);
      RunSpec(CommandStages(cmds), tagged, info, env);
    }
  }

  /**
    A new, addressed message that no command matches runs through every stage:
    only its id is remembered, and it is left to the default flow.
  */
  lemma {:induction false} FallThrough(cmds: seq<Command>, st: State, info: MsgInfo, env: Env)
    requires info.msgId !in st.processed && MentionPasses(info, env.mentionsMe) && info.qParsed != []
    requires forall c :: c in cmds ==> Match(c, info.qParsed).None?
    ensures RunSpec(Stages(cmds), st, info, env) == RunResult(false, st.TagProcessed(info.msgId))
  {
    ThroughGates(cmds, st, info, env);
    NoCommandMatches(cmds, st.TagProcessed(info.msgId), info, env);
  }

  /**
    A new, addressed message that a command matches is handled by that command
    alone, whatever the order of the command stages.
  */
  lemma {:induction false} Routed(cmds: seq<Command>, c: Command, arg: string, st: State, info: MsgInfo, env: Env)
    requires info.msgId !in st.processed && MentionPasses(info, env.mentionsMe)
    requires c in cmds && Match(c, info.qParsed) == Some(arg)
    ensures RunSpec(Stages(cmds), st, info, env)
         == RunResult(true, Perform(c, arg, st.TagProcessed(info.msgId), info, env))
  {
    EmptyMatchesNothing(c);
    ThroughGates(cmds, st, info, env);
    OneCommandMatches(cmds, c, arg, st.TagProcessed(info.msgId), info, env);
  }

  /**
    Run the stages `acts` on the handler in order, stopping at the first that
    answers "stop"; `handled` tells whether one did.
  */
  method RunActions(acts: seq<Action>, a: ActionInfo) returns (handled: bool)
    modifies a.handler
    ensures RunResult(handled, a.handler.Snapshot()) == RunSpec(acts, old(a.handler.Snapshot()), a.info, a.handler.env)
  {
    var i := 0;
    while i < |acts|
      invariant 0 <= i <= |acts|
      invariant RunSpec(acts[i..], a.handler.Snapshot(), a.info, a.handler.env)
             == RunSpec(acts, old(a.handler.Snapshot()), a.info, a.handler.env)
    {
      assert acts[i..][1..] == acts[i + 1..];
      var cont := Execute(acts[i], a);
      if !cont {
        return true;
      }
      i := i + 1;
    }
    return false;
  }
}
