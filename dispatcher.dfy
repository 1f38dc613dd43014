/**
 * The `interactionCreate` handler: it ignores interactions that are not
 * commands and names it does not know; for a known command it defers the
 * reply, runs the command's handler, classifies the execution time and, on
 * any failure inside its `try`, sends one generic error reply.
 *
 * What happens is recorded as a trace of effects. The handler, the platform
 * and the clock are inputs: whether `deferReply` throws, what the handler did
 * (the same `HandlerOutcome` the play and leave commands produce), the
 * measured execution time in milliseconds, and whether the warning's
 * `editReply` throws.
 */
module Dispatcher {
  import opened Wrappers
  import opened Replies
  import opened Registry

  datatype Interaction = Interaction(isCommand: bool, commandName: string)

  datatype LogLevel = Info | Warning | Error

  /** The replies the dispatcher itself sends. */
  datatype Notice = SlowWarning(executionTime: int) | UnexpectedError

  datatype Effect =
    | Deferred
    | HandlerRan(command: string)
    | Replied(reply: Reply)
    | Noticed(notice: Notice)
    | Logged(level: LogLevel)

  datatype Timing = Normal | Slow | LongFilters

  const WarningThreshold := 20000
  const FiltersThreshold := 55000

  /**
   * How the execution time is reported: above 20000 ms it is slow, except
   * that a module whose own `name` property is "filters" is let through
   * above 55000 ms. Both comparisons are strict.
   */
  function ClassifyTime(command: CommandModule, executionTime: int): (timing: Timing)
    ensures executionTime <= 20000 ==> timing == Normal
    ensures 20000 < executionTime <= 55000 ==> timing == Slow
    ensures executionTime > 55000 ==> (timing == LongFilters <==> command.name == Some("filters"))
    ensures executionTime > 55000 ==> timing != Normal
  {
    if executionTime > WarningThreshold then
      if command.name == Some("filters") && executionTime > FiltersThreshold then LongFilters
      else Slow
    else Normal
  }

  /** The handler's replies as effects. */
  function AsEffects(replies: seq<Reply>): (effects: seq<Effect>)
    ensures |effects| == |replies|
    ensures forall i | 0 <= i < |replies| :: effects[i] == Replied(replies[i])
  {
    seq(|replies|, i requires 0 <= i < |replies| => Replied(replies[i]))
  }

  /** The dispatcher's own replies in a trace, in order. */
  function Notices(effects: seq<Effect>): seq<Notice>
  {
    if effects == [] then []
    else (if effects[0].Noticed? then [effects[0].notice] else []) + Notices(effects[1..])
  }

  /** The levels of the log lines in a trace, in order. */
  function Logs(effects: seq<Effect>): seq<LogLevel>
  {
    if effects == [] then []
    else (if effects[0].Logged? then [effects[0].level] else []) + Logs(effects[1..])
  }

  /** `Notices` keeps exactly the dispatcher replies of the trace, and `Logs` exactly its log levels. */
  lemma {:induction false} ProjectionsKeepTheirEffects(effects: seq<Effect>)
    ensures forall n :: n in Notices(effects) <==> Noticed(n) in effects
    ensures forall l :: l in Logs(effects) <==> Logged(l) in effects
  {
    if effects != [] {
      ProjectionsKeepTheirEffects(effects[1..]);
      assert effects == [effects[0]] + effects[1..];
    }
  }

  lemma {:induction false} LogsConcat(a: seq<Effect>, b: seq<Effect>)
    ensures Logs(a + b) == Logs(a) + Logs(b)
  {
    if a == [] {
      assert a + b == b;
    } else {
      assert (a + b)[0] == a[0];
      assert (a + b)[1..] == a[1..] + b;
      LogsConcat(a[1..], b);
    }
  }

  lemma {:induction false} NoticesConcat(a: seq<Effect>, b: seq<Effect>)
    ensures Notices(a + b) == Notices(a) + Notices(b)
  {
    if a == [] {
      assert a + b == b;
    } else {
      assert (a + b)[0] == a[0];
      assert (a + b)[1..] == a[1..] + b;
      NoticesConcat(a[1..], b);
    }
  }

  /** A trace made only of handler replies holds no dispatcher reply and no log line. */
  lemma {:induction false} HandlerRepliesAreNotNotices(replies: seq<Reply>)
    ensures Notices(AsEffects(replies)) == []
    ensures Logs(AsEffects(replies)) == []
  {
    if replies != [] {
      assert AsEffects(replies)[1..] == AsEffects(replies[1..]);
      HandlerRepliesAreNotNotices(replies[1..]);
    }
  }

  /**
   * A trace that deferred, ran the handler, recorded its replies and went on
   * with `tail`: the handler ran only at position 1, and the dispatcher's own
   * replies and log lines are those of `tail`.
   */
  lemma HandledTrace(name: string, replies: seq<Reply>, tail: seq<Effect>)
    requires forall i | 0 <= i < |tail| :: !tail[i].HandlerRan?
    ensures var effects := [Deferred, HandlerRan(name)] + AsEffects(replies) + tail;
      Notices(effects) == Notices(tail) &&
      Logs(effects) == Logs(tail) &&
      effects[..2] == [Deferred, HandlerRan(name)] &&
      effects[2..2 + |replies|] == AsEffects(replies) &&
      effects[2 + |replies|..] == tail &&
      (forall i | 0 <= i < |effects| && effects[i].HandlerRan? :: i == 1) &&
      (tail != [] ==> effects[|effects| - 1] == tail[|tail| - 1])
  {
    var head := [Deferred, HandlerRan(name)];
    var effects := head + AsEffects(replies) + tail;
    NoticesConcat(head + AsEffects(replies), tail);
    NoticesConcat(head, AsEffects(replies));
    LogsConcat(head + AsEffects(replies), tail);
    LogsConcat(head, AsEffects(replies));
    HandlerRepliesAreNotNotices(replies);
    assert Notices(head) == [] && Logs(head) == [] by {
      assert head[1..] == [HandlerRan(name)];
      assert head[1..][1..] == [];
    }
    forall i | 2 <= i < |effects| ensures !effects[i].HandlerRan? {
      if i < 2 + |replies| {
        assert effects[i] == AsEffects(replies)[i - 2];
      } else {
        assert effects[i] == tail[i - 2 - |replies|];
      }
    }
  }

  /**
   * Proof helper for `HandleInteraction`: the dispatcher replies and log
   * levels of each of the four ways its handling can end.
   */
  lemma TailProjections(executionTime: int)
    ensures Notices([Logged(Info)]) == [] && Logs([Logged(Info)]) == [Info]
    ensures var warned := [Logged(Warning), Noticed(SlowWarning(executionTime))];
      Notices(warned) == [SlowWarning(executionTime)] && Logs(warned) == [Warning]
    ensures var caught := [Logged(Error), Noticed(UnexpectedError)];
      Notices(caught) == [UnexpectedError] && Logs(caught) == [Error]
    ensures var warnFailed := [Logged(Warning), Logged(Error), Noticed(UnexpectedError)];
      Notices(warnFailed) == [UnexpectedError] && Logs(warnFailed) == [Warning, Error]
  {
    var info := [Logged(Info)];
    assert info[1..] == [];
    var warned := [Logged(Warning), Noticed(SlowWarning(executionTime))];
    assert warned[1..] == [Noticed(SlowWarning(executionTime))] && warned[1..][1..] == [];
    var caught := [Logged(Error), Noticed(UnexpectedError)];
    assert caught[1..] == [Noticed(UnexpectedError)] && caught[1..][1..] == [];
    var warnFailed := [Logged(Warning)] + caught;
    assert warnFailed[1..] == caught;
  }

  /** The handler or the platform failed inside the `try`. */
  predicate FailsInTry(command: CommandModule, deferFails: bool, handler: HandlerOutcome,
                       executionTime: int, warningFails: bool)
  {
    deferFails || handler.Threw? || (ClassifyTime(command, executionTime) == Slow && warningFails)
  }

  /**
   * One `interactionCreate` event against the loaded `commands`. What follows
   * the handler's replies (`tail`) is the time log and, when slow, the
   * warning; or the catch block's error log and generic error reply.
   */
  method HandleInteraction(commands: map<string, CommandModule>, interaction: Interaction,
                           deferFails: bool, handler: HandlerOutcome, executionTime: int,
                           warningFails: bool)
    returns (effects: seq<Effect>)
    // not a command, or an unknown command: nothing at all happens
    ensures !interaction.isCommand || interaction.commandName !in commands ==> effects == []
    // the handler runs at most once, and only right after the reply was deferred
    ensures forall i | 0 <= i < |effects| && effects[i].HandlerRan? ::
              i == 1 && effects[0] == Deferred && effects[1] == HandlerRan(interaction.commandName)
    ensures interaction.isCommand && interaction.commandName in commands && deferFails ==>
      effects == [Logged(Error), Noticed(UnexpectedError)]
    ensures interaction.isCommand && interaction.commandName in commands && !deferFails ==>
      |effects| >= 2 + |handler.replies| &&
      effects[..2] == [Deferred, HandlerRan(interaction.commandName)] &&
      effects[2..2 + |handler.replies|] == AsEffects(handler.replies) &&
      // after the handler's replies come only the dispatcher's own replies and log lines
      forall i | 2 + |handler.replies| <= i < |effects| :: effects[i].Noticed? || effects[i].Logged?
    // any failure in the try: exactly one generic error reply, sent last
    ensures interaction.isCommand && interaction.commandName in commands &&
            FailsInTry(commands[interaction.commandName], deferFails, handler, executionTime, warningFails) ==>
      Notices(effects) == [UnexpectedError] && effects[|effects| - 1] == Noticed(UnexpectedError) &&
      // the catch block logs an error, after the slow-time warning log if that was reached
      Logs(effects) == if deferFails || handler.Threw? then [Error] else [Warning, Error]
    // otherwise: one warning exactly when the time is over 20000 ms, unless the
    // module's own `name` is "filters" and the time is over 55000 ms
    ensures interaction.isCommand && interaction.commandName in commands &&
            !FailsInTry(commands[interaction.commandName], deferFails, handler, executionTime, warningFails) ==>
      var command := commands[interaction.commandName];
      var warned := executionTime > 20000 && !(command.name == Some("filters") && executionTime > 55000);
      Notices(effects) == (if warned then [SlowWarning(executionTime)] else []) &&
      // a warning log before the warning reply; otherwise only an info log
      Logs(effects) == (if warned then [Warning] else [Info]) &&
      // the warning's `editReply` replaces the deferred reply, and nothing follows it
      (warned ==> effects[|effects| - 1] == Noticed(SlowWarning(executionTime)))
  {
    effects := [];
    if !interaction.isCommand {
      return;
    }
    if interaction.commandName !in commands {
      return;
    }
    var command := commands[interaction.commandName];
    TailProjections(executionTime);
    if deferFails {
      effects := [Logged(Error), Noticed(UnexpectedError)];
      return;
    }
    var tail: seq<Effect>;
    if handler.Threw? {
      tail := [Logged(Error), Noticed(UnexpectedError)];
    } else if ClassifyTime(command, executionTime) == Slow {
      if warningFails {
        tail := [Logged(Warning), Logged(Error), Noticed(UnexpectedError)];
      } else {
        tail := [Logged(Warning), Noticed(SlowWarning(executionTime))];
      }
    } else {
      tail := [Logged(Info)];
    }
    HandledTrace(interaction.commandName, handler.replies, tail);
    effects := [Deferred, HandlerRan(interaction.commandName)] + AsEffects(handler.replies) + tail;
  }

  /**
   * As written, the filters exception tests the module's `name` property, which
   * the loaded command modules do not define: for every registered command the
   * time is classified as if the exception did not exist, so a filters command
   * above 55000 ms is still warned about.
   */
  lemma FiltersExceptionUnreachable(modules: seq<CommandModule>, key: string, executionTime: int)
    requires forall i | 0 <= i < |modules| :: modules[i].name.None?
    requires key in Registered(modules)
    ensures ClassifyTime(Registered(modules)[key], executionTime) ==
            if executionTime > 20000 then Slow else Normal
  {
    RegisteredEntry(modules, key);
  }
}
