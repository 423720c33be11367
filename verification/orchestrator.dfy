/**
 The `/turn` handler: a per-session state machine over the message log.
 A session is active while its turn counter is below MAX_TURNS and concluded
 from then on. An active call writes the learner's message, asks the
 completion provider and writes its reply; a concluded call only answers
 with the closing line.
 */
module Orchestrator {
  import opened Wrappers
  import opened MessageLog
  import opened MessageStore
  import opened Level
  import opened Gateway

  /** MAX_TURNS and the completion provider's settings. */
  datatype Config = Config(maxTurns: int, gateway: GatewayConfig)

  /** The JSON body {bot, turn, done}. */
  datatype TurnReply = TurnReply(bot: string, turn: int, done: bool)

  /** What one call returns, and the log it leaves behind. */
  datatype Outcome = Outcome(result: Result<TurnReply, LlmError>, log: seq<Message>)

  const ClosingText: string := "Merci pour cette conversation ! À bientôt !"

  /** The session no longer talks to the provider. */
  predicate Concluded(cfg: Config, log: seq<Message>, s: string)
  {
    CurrentTurn(log, s) >= cfg.maxTurns
  }

  /** One call of turn(session, userText) against the log `log`. The log only
      grows, and it grows exactly when the session is still active; a failed
      call leaves one row behind; a reply is done exactly when its turn has
      reached the budget. */
  function TurnSpec(cfg: Config, log: seq<Message>, s: string, userText: string, complete: Oracle): (o: Outcome)
    ensures log <= o.log
    ensures o.log == log <==> Concluded(cfg, log, s)
    ensures o.result.Failure? ==> |o.log| == |log| + 1
    ensures o.result.Success? ==> o.result.value.done == (o.result.value.turn >= cfg.maxTurns)
  {
    var t := CurrentTurn(log, s);
    if t >= cfg.maxTurns then
      Outcome(Success(TurnReply(ClosingText, t, true)), log)
    else
      var logUser := log + [Message(s, t + 1, UserRole, userText)];
      match CallLlm(cfg.gateway, History(logUser, s), LevelHint(userText), complete)
      case Failure(e) => Outcome(Failure(e), logUser)
      case Success(bot) =>
        Outcome(Success(TurnReply(bot, t + 1, t + 1 >= cfg.maxTurns)),
                logUser + [Message(s, t + 1, AssistantRole, bot)])
  }

  /** turn: read the counter, write the learner's message, re-read the history,
      call the provider, write its reply. A failure of the provider ends the
      call after the first write, with nothing undone. */
  method Turn(cfg: Config, store: Store, s: string, userText: string, complete: Oracle)
    returns (r: Result<TurnReply, LlmError>)
    modifies store
    ensures Outcome(r, store.log) == TurnSpec(cfg, old(store.log), s, userText, complete)
  {
    var t := store.GetTurn(s);
    if t >= cfg.maxTurns {
      return Success(TurnReply(ClosingText, t, true));
    }
    store.SaveMsg(s, t + 1, UserRole, userText);
    var history := store.GetHistory(s);
    var reply := CallLlm(cfg.gateway, history, LevelHint(userText), complete);
    if reply.Failure? {
      return Failure(reply.error);
    }
    store.SaveMsg(s, t + 1, AssistantRole, reply.value);
    r := Success(TurnReply(reply.value, t + 1, t + 1 >= cfg.maxTurns));
  }

  // ---------------------------------------------------------------------
  // One call

  /** A concluded session answers with the closing line at its own counter,
      writes nothing and consults neither the text nor the provider. */
  lemma ConcludedTurn(cfg: Config, log: seq<Message>, s: string, text: string, complete: Oracle)
    requires Concluded(cfg, log, s)
    ensures TurnSpec(cfg, log, s, text, complete) ==
              Outcome(Success(TurnReply(ClosingText, CurrentTurn(log, s), true)), log)
  {
  }

  /** An active call hands the provider the session's history with the
      learner's message already at its end. If the provider call fails, the log
      keeps that message and nothing else; if it succeeds, the log gains the
      learner's and the provider's records at the next turn and the reply says
      whether the budget is now used up. Either way the counter moves on by one. */
  lemma {:induction false} ActiveTurn(cfg: Config, log: seq<Message>, s: string, text: string, complete: Oracle)
    requires !Concluded(cfg, log, s)
    ensures
      var t := CurrentTurn(log, s);
      var user := Message(s, t + 1, UserRole, text);
      var reply := CallLlm(cfg.gateway, History(log, s) + [ChatMessage(UserRole, text)], LevelHint(text), complete);
      var o := TurnSpec(cfg, log, s, text, complete);
      && (reply.Failure? ==> o == Outcome(Failure(reply.error), log + [user]))
      && (reply.Success? ==>
            o == Outcome(Success(TurnReply(reply.value, t + 1, t + 1 >= cfg.maxTurns)),
                         log + [user, Message(s, t + 1, AssistantRole, reply.value)]))
      && CurrentTurn(o.log, s) == t + 1
  {
    HistoryAppendOwn(log, Message(s, CurrentTurn(log, s) + 1, UserRole, text));
    ActiveTurnFailure(cfg, log, s, text, complete);
    ActiveTurnSuccess(cfg, log, s, text, complete);
    ActiveTurnCounter(cfg, log, s, text, complete);
  }

  /** The failure half of ActiveTurn. */
  lemma ActiveTurnFailure(cfg: Config, log: seq<Message>, s: string, text: string, complete: Oracle)
    requires !Concluded(cfg, log, s)
    ensures
      var user := Message(s, CurrentTurn(log, s) + 1, UserRole, text);
      var reply := CallLlm(cfg.gateway, History(log + [user], s), LevelHint(text), complete);
      reply.Failure? ==> TurnSpec(cfg, log, s, text, complete) == Outcome(Failure(reply.error), log + [user])
  {
  }

  /** The success half of ActiveTurn. */
  lemma ActiveTurnSuccess(cfg: Config, log: seq<Message>, s: string, text: string, complete: Oracle)
    requires !Concluded(cfg, log, s)
    ensures
      var t := CurrentTurn(log, s);
      var user := Message(s, t + 1, UserRole, text);
      var reply := CallLlm(cfg.gateway, History(log + [user], s), LevelHint(text), complete);
      reply.Success? ==>
        TurnSpec(cfg, log, s, text, complete) ==
          Outcome(Success(TurnReply(reply.value, t + 1, t + 1 >= cfg.maxTurns)),
                  log + [user, Message(s, t + 1, AssistantRole, reply.value)])
  {
    var t := CurrentTurn(log, s);
    var user := Message(s, t + 1, UserRole, text);
    var reply := CallLlm(cfg.gateway, History(log + [user], s), LevelHint(text), complete);
    if reply.Success? {
      var bot := Message(s, t + 1, AssistantRole, reply.value);
      assert log + [user] + [bot] == log + [user, bot];
    }
  }

  /** The counter part of ActiveTurn. */
  lemma ActiveTurnCounter(cfg: Config, log: seq<Message>, s: string, text: string, complete: Oracle)
    requires !Concluded(cfg, log, s)
    ensures CurrentTurn(TurnSpec(cfg, log, s, text, complete).log, s) == CurrentTurn(log, s) + 1
  {
    var t := CurrentTurn(log, s);
    var user := Message(s, t + 1, UserRole, text);
    var logUser := log + [user];
    CurrentTurnAppend(log, user, s);
    var reply := CallLlm(cfg.gateway, History(logUser, s), LevelHint(text), complete);
    if reply.Success? {
      CurrentTurnAppend(logUser, Message(s, t + 1, AssistantRole, reply.value), s);
    }
  }

  /** With no credential an active call fails, but only after the learner's
      message has been written: the key is checked inside the provider call. */
  lemma MissingKeyAfterWrite(cfg: Config, log: seq<Message>, s: string, text: string, complete: Oracle)
    requires !Concluded(cfg, log, s) && cfg.gateway.apiKey == ""
    ensures TurnSpec(cfg, log, s, text, complete) ==
              Outcome(Failure(MissingApiKey), log + [Message(s, CurrentTurn(log, s) + 1, UserRole, text)])
  {
  }

  /** A failed call is not rolled back: a retry sees the counter one higher and
      writes its learner message one turn later, or, if that used up the budget,
      gets the closing line. */
  lemma FailedTurnThenRetry(cfg: Config, log: seq<Message>, s: string, text: string, complete: Oracle,
                            retryText: string, retryComplete: Oracle)
    requires !Concluded(cfg, log, s)
    requires TurnSpec(cfg, log, s, text, complete).result.Failure?
    ensures
      var t := CurrentTurn(log, s);
      var failed := TurnSpec(cfg, log, s, text, complete).log;
      var retry := TurnSpec(cfg, failed, s, retryText, retryComplete);
      && failed == log + [Message(s, t + 1, UserRole, text)]
      && CurrentTurn(failed, s) == t + 1
      && (t + 1 < cfg.maxTurns ==>
            |retry.log| > |failed| && retry.log[..|failed| + 1] == failed + [Message(s, t + 2, UserRole, retryText)])
      && (t + 1 >= cfg.maxTurns ==>
            retry == Outcome(Success(TurnReply(ClosingText, t + 1, true)), failed))
  {
    var t := CurrentTurn(log, s);
    var failed := log + [Message(s, t + 1, UserRole, text)];
    ActiveTurnFailure(cfg, log, s, text, complete);
    ActiveTurnSuccess(cfg, log, s, text, complete);
    ActiveTurnCounter(cfg, log, s, text, complete);
    assert TurnSpec(cfg, log, s, text, complete).log == failed;
    if t + 1 < cfg.maxTurns {
      var user2 := Message(s, t + 2, UserRole, retryText);
      ActiveTurnFailure(cfg, failed, s, retryText, retryComplete);
      ActiveTurnSuccess(cfg, failed, s, retryText, retryComplete);
      var reply2 := CallLlm(cfg.gateway, History(failed + [user2], s), LevelHint(retryText), retryComplete);
      if reply2.Success? {
        assert (failed + [user2, Message(s, t + 2, AssistantRole, reply2.value)])[..|failed| + 1] == failed + [user2];
      } else {
        assert (failed + [user2])[..|failed| + 1] == failed + [user2];
      }
    }
  }

  /** A call writes only records of its own session: every other session's
      records, counter and history stay as they were. */
  lemma OtherSessionsUnchanged(cfg: Config, log: seq<Message>, s: string, text: string, complete: Oracle, other: string)
    requires other != s
    ensures
      var o := TurnSpec(cfg, log, s, text, complete);
      && SessionRecords(o.log, other) == SessionRecords(log, other)
      && CurrentTurn(o.log, other) == CurrentTurn(log, other)
      && History(o.log, other) == History(log, other)
  {
    if !Concluded(cfg, log, s) {
      var t := CurrentTurn(log, s);
      var user := Message(s, t + 1, UserRole, text);
      var logUser := log + [user];
      var reply := CallLlm(cfg.gateway, History(logUser, s), LevelHint(text), complete);
      ActiveTurnFailure(cfg, log, s, text, complete);
      ActiveTurnSuccess(cfg, log, s, text, complete);
      AppendLeavesOthers(log, user, other);
      if reply.Success? {
        var bot := Message(s, t + 1, AssistantRole, reply.value);
        CurrentTurnAppend(log, user, s);
        AppendLeavesOthers(logUser, bot, other);
        assert log + [user, bot] == logUser + [bot];
      }
    }
  }

  /** With a usable configuration, the oracle is asked exactly once, with the
      system message for the learner's level, the earlier history and the
      learner's new message, and its answer decides the call. */
  lemma ActiveTurnRequest(cfg: Config, log: seq<Message>, s: string, text: string, complete: Oracle)
    requires !Concluded(cfg, log, s)
    requires cfg.gateway.apiKey != "" && IsMistral(cfg.gateway.provider)
    ensures
      var request := [SystemMessage(cfg.gateway.systemPrompt, LevelHint(text))] + History(log, s) +
                     [ChatMessage(UserRole, text)];
      var o := TurnSpec(cfg, log, s, text, complete);
      && (o.result.Success? <==> complete(request).Success?)
      && (o.result.Success? ==> o.result.value.bot == complete(request).value)
      && (o.result.Failure? ==> o.result == Failure(Upstream(complete(request).error)))
  {
    var history := History(log, s) + [ChatMessage(UserRole, text)];
    ActiveTurn(cfg, log, s, text, complete);
    assert BuildRequest(cfg.gateway.systemPrompt, LevelHint(text), history) ==
           [SystemMessage(cfg.gateway.systemPrompt, LevelHint(text))] + History(log, s) + [ChatMessage(UserRole, text)];
  }

  // ---------------------------------------------------------------------
  // The shape of a session's records

  /** What the turns of a session look like in write order, one record at a
      time: each learner message opens a turn later than the record before it,
      and each reply directly follows the learner message of its own turn. */
  predicate Shaped(recs: seq<Message>)
    decreases |recs|
  {
    recs == [] || (Shaped(recs[..|recs| - 1]) && Follows(recs[..|recs| - 1], recs[|recs| - 1]))
  }

  /** Record `m` may be written right after the records `prev` of its session. */
  predicate Follows(prev: seq<Message>, m: Message)
  {
    if m.role == UserRole then prev == [] || prev[|prev| - 1].turn < m.turn
    else m.role == AssistantRole && prev != [] && prev[|prev| - 1].role == UserRole && prev[|prev| - 1].turn == m.turn
  }

  /** A shaped session holds only learner messages and replies. */
  lemma {:induction false} ShapedRoles(recs: seq<Message>)
    requires Shaped(recs)
    ensures forall j :: 0 <= j < |recs| ==> recs[j].role == UserRole || recs[j].role == AssistantRole
    decreases |recs|
  {
    if recs != [] {
      var init := recs[..|recs| - 1];
      ShapedRoles(init);
      assert forall i :: 0 <= i < |init| ==> recs[i] == init[i];
    }
  }

  /** In a shaped session each reply comes right after the learner message of its turn. */
  lemma {:induction false} ShapedReplies(recs: seq<Message>)
    requires Shaped(recs)
    ensures forall j :: 0 <= j < |recs| && recs[j].role == AssistantRole ==>
              0 < j && recs[j - 1].role == UserRole && recs[j - 1].turn == recs[j].turn
    decreases |recs|
  {
    if recs != [] {
      var init := recs[..|recs| - 1];
      ShapedReplies(init);
      assert forall i :: 0 <= i < |init| ==> recs[i] == init[i];
    }
  }

  /** A shaped session is sorted by turn, and each learner message is later
      than every record before it. */
  lemma {:induction false} ShapedOrdered(recs: seq<Message>)
    requires Shaped(recs)
    ensures SortedByTurn(recs)
    ensures forall i, j :: 0 <= i < j < |recs| && recs[j].role == UserRole ==> recs[i].turn < recs[j].turn
    decreases |recs|
  {
    if recs != [] {
      var n := |recs| - 1;
      var init, last := recs[..n], recs[n];
      ShapedOrdered(init);
      assert forall i :: 0 <= i < n ==> recs[i] == init[i];
      assert n == 0 || init[n - 1].turn <= last.turn;
      assert forall i :: 0 <= i < n ==> recs[i].turn <= last.turn;
      assert last.role == UserRole ==> forall i :: 0 <= i < n ==> recs[i].turn < last.turn;
    }
  }

  /** Every session of the log is shaped. */
  ghost predicate LogShaped(log: seq<Message>)
  {
    forall s :: Shaped(SessionRecords(log, s))
  }

  /** The empty table is shaped. */
  lemma EmptyLogShaped()
    ensures LogShaped([])
  {
  }

  /** A learner message later than every record keeps the session shaped. */
  lemma ShapedAppendUser(recs: seq<Message>, m: Message)
    requires Shaped(recs) && m.role == UserRole
    requires forall x :: x in recs ==> x.turn < m.turn
    ensures Shaped(recs + [m])
  {
    assert (recs + [m])[..|recs|] == recs;
    if recs != [] {
      assert recs[|recs| - 1] in recs;
    }
  }

  /** A reply at the turn of the learner message just before it keeps the session shaped. */
  lemma ShapedAppendAssistant(recs: seq<Message>, m: Message)
    requires Shaped(recs) && m.role == AssistantRole && recs != []
    requires recs[|recs| - 1].role == UserRole && recs[|recs| - 1].turn == m.turn
    ensures Shaped(recs + [m])
  {
    assert (recs + [m])[..|recs|] == recs;
  }

  /** The records a failed call adds to its own session: the learner message. */
  lemma OwnRecordsAfterFailure(cfg: Config, log: seq<Message>, s: string, text: string, complete: Oracle)
    requires !Concluded(cfg, log, s)
    requires TurnSpec(cfg, log, s, text, complete).result.Failure?
    ensures SessionRecords(TurnSpec(cfg, log, s, text, complete).log, s) ==
              SessionRecords(log, s) + [Message(s, CurrentTurn(log, s) + 1, UserRole, text)]
  {
    ActiveTurnFailure(cfg, log, s, text, complete);
    ActiveTurnSuccess(cfg, log, s, text, complete);
    SessionRecordsAppend(log, Message(s, CurrentTurn(log, s) + 1, UserRole, text), s);
  }

  /** The records a successful call adds to its own session: the learner message and the reply. */
  lemma OwnRecordsAfterSuccess(cfg: Config, log: seq<Message>, s: string, text: string, complete: Oracle)
    requires !Concluded(cfg, log, s)
    requires TurnSpec(cfg, log, s, text, complete).result.Success?
    ensures
      var t := CurrentTurn(log, s);
      var o := TurnSpec(cfg, log, s, text, complete);
      SessionRecords(o.log, s) ==
        SessionRecords(log, s) + [Message(s, t + 1, UserRole, text), Message(s, t + 1, AssistantRole, o.result.value.bot)]
  {
    var t := CurrentTurn(log, s);
    var user := Message(s, t + 1, UserRole, text);
    var logUser := log + [user];
    ActiveTurnFailure(cfg, log, s, text, complete);
    ActiveTurnSuccess(cfg, log, s, text, complete);
    var o := TurnSpec(cfg, log, s, text, complete);
    var bot := Message(s, t + 1, AssistantRole, o.result.value.bot);
    assert o.log == logUser + [bot];
    SessionRecordsAppend(log, user, s);
    SessionRecordsAppend(logUser, bot, s);
    assert SessionRecords(log, s) + [user] + [bot] == SessionRecords(log, s) + [user, bot];
  }

  /** turn keeps its own session shaped. */
  lemma OwnSessionKeepsShape(cfg: Config, log: seq<Message>, s: string, text: string, complete: Oracle)
    requires Shaped(SessionRecords(log, s))
    ensures Shaped(SessionRecords(TurnSpec(cfg, log, s, text, complete).log, s))
  {
    if !Concluded(cfg, log, s) {
      var recs := SessionRecords(log, s);
      var user := Message(s, CurrentTurn(log, s) + 1, UserRole, text);
      assert Shaped(recs + [user]) by {
        TurnsAtMostCurrent(log, s);
        ShapedAppendUser(recs, user);
      }
      var o := TurnSpec(cfg, log, s, text, complete);
      if o.result.Failure? {
        OwnRecordsAfterFailure(cfg, log, s, text, complete);
      } else {
        OwnRecordsAfterSuccess(cfg, log, s, text, complete);
        var bot := Message(s, user.turn, AssistantRole, o.result.value.bot);
        assert Shaped(recs + [user, bot]) by {
          ShapedAppendAssistant(recs + [user], bot);
          assert recs + [user] + [bot] == recs + [user, bot];
        }
      }
    }
  }

  /** turn keeps every session shaped. */
  lemma TurnKeepsShape(cfg: Config, log: seq<Message>, s: string, text: string, complete: Oracle)
    requires LogShaped(log)
    ensures LogShaped(TurnSpec(cfg, log, s, text, complete).log)
  {
    var o := TurnSpec(cfg, log, s, text, complete);
    forall s2 ensures Shaped(SessionRecords(o.log, s2)) {
      if s2 != s {
        OtherSessionsUnchanged(cfg, log, s, text, complete, s2);
      } else {
        OwnSessionKeepsShape(cfg, log, s, text, complete);
      }
    }
  }

  /** In a shaped session get_history is the session's records in write order,
      and every reply in it comes right after a learner message. */
  lemma ShapedHistory(log: seq<Message>, s: string)
    requires Shaped(SessionRecords(log, s))
    ensures History(log, s) == Project(SessionRecords(log, s))
    ensures var h := History(log, s);
      forall j :: 0 <= j < |h| && h[j].role == AssistantRole ==> 0 < j && h[j - 1].role == UserRole
  {
    ShapedOrdered(SessionRecords(log, s));
    ShapedReplies(SessionRecords(log, s));
    SortedSessionOfSorted(log, s);
  }

  /** In a shaped session no turn has two replies. */
  lemma ShapedOneReplyPerTurn(recs: seq<Message>)
    requires Shaped(recs)
    ensures forall i, j :: 0 <= i < j < |recs| && recs[i].role == AssistantRole && recs[j].role == AssistantRole ==>
              recs[i].turn < recs[j].turn
  {
    ShapedReplies(recs);
    ShapedOrdered(recs);
    forall i, j | 0 <= i < j < |recs| && recs[i].role == AssistantRole && recs[j].role == AssistantRole
      ensures recs[i].turn < recs[j].turn
    {
      assert recs[j - 1].role == UserRole;
      assert i != j - 1;
    }
  }

  // ---------------------------------------------------------------------
  // Successive calls on one session

  /** The replies and the final log of successive calls with `texts`. */
  datatype Trace = Trace(results: seq<Result<TurnReply, LlmError>>, log: seq<Message>)

  function Run(cfg: Config, log: seq<Message>, s: string, texts: seq<string>, complete: Oracle): (tr: Trace)
    ensures |tr.results| == |texts|
    decreases |texts|
  {
    if texts == [] then Trace([], log)
    else
      var o := TurnSpec(cfg, log, s, texts[0], complete);
      var rest := Run(cfg, o.log, s, texts[1..], complete);
      Trace([o.result] + rest.results, rest.log)
  }

  /** Every session stays shaped over any number of calls. */
  lemma {:induction false} RunKeepsShape(cfg: Config, log: seq<Message>, s: string, texts: seq<string>, complete: Oracle)
    requires LogShaped(log)
    ensures LogShaped(Run(cfg, log, s, texts, complete).log)
    decreases |texts|
  {
    if texts != [] {
      TurnKeepsShape(cfg, log, s, texts[0], complete);
      RunKeepsShape(cfg, TurnSpec(cfg, log, s, texts[0], complete).log, s, texts[1..], complete);
    }
  }

  /** Once concluded, every further call returns the same closing reply and the log stays as it is. */
  lemma {:induction false} ConcludedRun(cfg: Config, log: seq<Message>, s: string, texts: seq<string>, complete: Oracle)
    requires Concluded(cfg, log, s)
    ensures Run(cfg, log, s, texts, complete).log == log
    ensures forall k :: 0 <= k < |texts| ==>
              Run(cfg, log, s, texts, complete).results[k] ==
                Success(TurnReply(ClosingText, CurrentTurn(log, s), true))
    decreases |texts|
  {
    if texts != [] {
      ConcludedTurn(cfg, log, s, texts[0], complete);
      ConcludedRun(cfg, log, s, texts[1..], complete);
    }
  }

  /** The counter after `k` more successful calls from counter `t0`, with budget `maxTurns`. */
  function TurnAfter(t0: int, k: nat, maxTurns: int): int
  {
    if t0 >= maxTurns then t0 else if t0 + k < maxTurns then t0 + k else maxTurns
  }

  /** One call when the provider always answers: it succeeds, reports the next
      counter value (or the unchanged one once concluded), and done says whether
      the budget is used up. */
  lemma AnsweredTurn(cfg: Config, log: seq<Message>, s: string, text: string, complete: Oracle)
    requires cfg.gateway.apiKey != "" && IsMistral(cfg.gateway.provider)
    requires forall q :: complete(q).Success?
    ensures
      var t1 := TurnAfter(CurrentTurn(log, s), 1, cfg.maxTurns);
      var o := TurnSpec(cfg, log, s, text, complete);
      && o.result.Success?
      && o.result.value.turn == t1
      && o.result.value.done == (t1 >= cfg.maxTurns)
      && CurrentTurn(o.log, s) == t1
  {
    if !Concluded(cfg, log, s) {
      ActiveTurnSuccess(cfg, log, s, text, complete);
      ActiveTurnCounter(cfg, log, s, text, complete);
    }
  }

  /** One call moves the counter as TurnAfter says, whatever the provider
      answers: a failed call advances it as a successful one does. */
  lemma TurnCounter(cfg: Config, log: seq<Message>, s: string, text: string, complete: Oracle)
    ensures CurrentTurn(TurnSpec(cfg, log, s, text, complete).log, s) ==
              TurnAfter(CurrentTurn(log, s), 1, cfg.maxTurns)
  {
    if !Concluded(cfg, log, s) {
      ActiveTurnCounter(cfg, log, s, text, complete);
    }
  }

  /** No rollback over a whole run: whatever the provider answers, the final
      counter is TurnAfter(t0, |texts|), failed calls counting like answered ones. */
  lemma {:induction false} RunCounter(cfg: Config, log: seq<Message>, s: string, texts: seq<string>, complete: Oracle)
    ensures CurrentTurn(Run(cfg, log, s, texts, complete).log, s) ==
              TurnAfter(CurrentTurn(log, s), |texts|, cfg.maxTurns)
    decreases |texts|
  {
    if texts != [] {
      var o := TurnSpec(cfg, log, s, texts[0], complete);
      TurnCounter(cfg, log, s, texts[0], complete);
      RunCounter(cfg, o.log, s, texts[1..], complete);
      TurnAfterStep(CurrentTurn(log, s), |texts| - 1, cfg.maxTurns);
    }
  }

  /** A reply with done = true leaves the session concluded at the reported
      turn, so every later call gets the closing line at that same turn. */
  lemma DoneConcludes(cfg: Config, log: seq<Message>, s: string, text: string, complete: Oracle)
    ensures var o := TurnSpec(cfg, log, s, text, complete);
      o.result.Success? && o.result.value.done ==>
        Concluded(cfg, o.log, s) && CurrentTurn(o.log, s) == o.result.value.turn
  {
    if !Concluded(cfg, log, s) {
      ActiveTurn(cfg, log, s, text, complete);
    }
  }

  /** Every log built by calls on one session from the empty table is shaped. */
  lemma FreshRunShaped(cfg: Config, s: string, texts: seq<string>, complete: Oracle)
    ensures LogShaped(Run(cfg, [], s, texts, complete).log)
  {
    EmptyLogShaped();
    RunKeepsShape(cfg, [], s, texts, complete);
  }

  /** One call and `k` more take the counter as far as `k + 1` calls do. */
  lemma TurnAfterStep(t0: int, k: nat, maxTurns: int)
    ensures TurnAfter(TurnAfter(t0, 1, maxTurns), k, maxTurns) == TurnAfter(t0, k + 1, maxTurns)
  {
  }

  /** Turn counting: when the provider always answers, call k (from 0) reports
      turn TurnAfter(t0, k + 1), with done exactly when the budget is used up,
      and the final counter is TurnAfter(t0, |texts|). */
  lemma {:induction false} RunCountsTurns(cfg: Config, log: seq<Message>, s: string, texts: seq<string>, complete: Oracle)
    requires cfg.gateway.apiKey != "" && IsMistral(cfg.gateway.provider)
    requires forall q :: complete(q).Success?
    ensures
      var t0 := CurrentTurn(log, s);
      var tr := Run(cfg, log, s, texts, complete);
      && CurrentTurn(tr.log, s) == TurnAfter(t0, |texts|, cfg.maxTurns)
      && forall k :: 0 <= k < |texts| ==>
           && tr.results[k].Success?
           && tr.results[k].value.turn == TurnAfter(t0, k + 1, cfg.maxTurns)
           && tr.results[k].value.done == (tr.results[k].value.turn >= cfg.maxTurns)
    decreases |texts|
  {
    RunCounter(cfg, log, s, texts, complete);
    if texts != [] {
      var t0 := CurrentTurn(log, s);
      var o := TurnSpec(cfg, log, s, texts[0], complete);
      AnsweredTurn(cfg, log, s, texts[0], complete);
      RunCountsTurns(cfg, o.log, s, texts[1..], complete);
      var tr := Run(cfg, log, s, texts, complete);
      var rest := Run(cfg, o.log, s, texts[1..], complete);
      assert tr.results == [o.result] + rest.results;
      forall k | 0 <= k < |texts|
        ensures tr.results[k].Success?
        ensures tr.results[k].value.turn == TurnAfter(t0, k + 1, cfg.maxTurns)
        ensures tr.results[k].value.done == (tr.results[k].value.turn >= cfg.maxTurns)
      {
        if k > 0 {
          assert tr.results[k] == rest.results[k - 1];
          TurnAfterStep(t0, k, cfg.maxTurns);
        }
      }
    }
  }

  /** Calls on `xs` and then on `ys` are the calls on `xs + ys`. */
  lemma {:induction false} RunSplit(cfg: Config, log: seq<Message>, s: string, xs: seq<string>, ys: seq<string>, complete: Oracle)
    ensures
      var first := Run(cfg, log, s, xs, complete);
      var second := Run(cfg, first.log, s, ys, complete);
      Run(cfg, log, s, xs + ys, complete) == Trace(first.results + second.results, second.log)
    decreases |xs|
  {
    if xs == [] {
      assert xs + ys == ys;
    } else {
      var o := TurnSpec(cfg, log, s, xs[0], complete);
      assert (xs + ys)[0] == xs[0] && (xs + ys)[1..] == xs[1..] + ys;
      RunSplit(cfg, o.log, s, xs[1..], ys, complete);
      var first := Run(cfg, o.log, s, xs[1..], complete);
      var second := Run(cfg, first.log, s, ys, complete);
      assert [o.result] + (first.results + second.results) == ([o.result] + first.results) + second.results;
    }
  }

  /** With a budget of two turns and a provider that always answers, a new
      session's first call reports turn 1, the second turn 2 with done set, and
      the third the closing line at turn 2. */
  lemma TwoTurnBudget(cfg: Config, s: string, a: string, b: string, c: string, complete: Oracle)
    requires cfg.maxTurns == 2
    requires cfg.gateway.apiKey != "" && IsMistral(cfg.gateway.provider)
    requires forall q :: complete(q).Success?
    ensures
      var tr := Run(cfg, [], s, [a, b, c], complete);
      && tr.results[0].Success? && tr.results[0].value.turn == 1 && !tr.results[0].value.done
      && tr.results[1].Success? && tr.results[1].value.turn == 2 && tr.results[1].value.done
      && tr.results[2] == Success(TurnReply(ClosingText, 2, true))
  {
    var first := Run(cfg, [], s, [a, b], complete);
    RunCountsTurns(cfg, [], s, [a, b], complete);
    RunSplit(cfg, [], s, [a, b], [c], complete);
    assert [a, b] + [c] == [a, b, c];
    ConcludedRun(cfg, first.log, s, [c], complete);
  }
}
