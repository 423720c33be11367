/**
 The `messages` table as an append-only log of records, and the read-only
 queries over it: the largest turn of a session and the session's history
 ordered by turn.
 */
module MessageLog {
  import opened Wrappers

  /** One row of the table: (session_id, turn, role, content); the timestamp is not modelled. */
  datatype Message = Message(session: string, turn: int, role: string, content: string)

  /** One entry of the chat history handed to the completion provider. */
  datatype ChatMessage = ChatMessage(role: string, content: string)

  const UserRole: string := "user"
  const AssistantRole: string := "assistant"

  /** The records of session `s`, in write order (WHERE session_id = s). */
  function SessionRecords(log: seq<Message>, s: string): seq<Message>
  {
    if log == [] then []
    else
      var last := log[|log| - 1];
      SessionRecords(log[..|log| - 1], s) + (if last.session == s then [last] else [])
  }

  /** SELECT MAX(turn) ... WHERE session_id = s: None when the session has no rows. */
  function MaxTurn(log: seq<Message>, s: string): Option<int>
  {
    if log == [] then None
    else
      var last := log[|log| - 1];
      var before := MaxTurn(log[..|log| - 1], s);
      if last.session != s then before
      else match before
        case None => Some(last.turn)
        case Some(t) => Some(if t < last.turn then last.turn else t)
  }

  /** get_turn: the largest recorded turn of a session, or 0 when it has no rows. */
  function CurrentTurn(log: seq<Message>, s: string): int
  {
    match MaxTurn(log, s)
    case None => 0
    case Some(t) => t
  }

  /** Every record is at a turn no later than any record after it. */
  predicate SortedByTurn(xs: seq<Message>)
  {
    forall i, j :: 0 <= i < j < |xs| ==> xs[i].turn <= xs[j].turn
  }

  /** The records at turn `k`, in their order in `xs`. */
  function AtTurn(xs: seq<Message>, k: int): seq<Message>
  {
    if xs == [] then []
    else AtTurn(xs[..|xs| - 1], k) + (if xs[|xs| - 1].turn == k then [xs[|xs| - 1]] else [])
  }

  /** Places `m` after every trailing record of `xs` whose turn is not later than its own. */
  function InsertByTurn(xs: seq<Message>, m: Message): seq<Message>
  {
    if xs == [] || xs[|xs| - 1].turn <= m.turn then xs + [m]
    else InsertByTurn(xs[..|xs| - 1], m) + [xs[|xs| - 1]]
  }

  /** The rows of session `s` ORDER BY turn, rows of equal turn left in write
      order: each row of the session is inserted, in write order, behind every
      row whose turn is not later than its own. */
  function SortedSession(log: seq<Message>, s: string): seq<Message>
  {
    if log == [] then []
    else
      var prev := SortedSession(log[..|log| - 1], s);
      if log[|log| - 1].session == s then InsertByTurn(prev, log[|log| - 1]) else prev
  }

  /** The (role, content) projection of a sequence of records. */
  function Project(xs: seq<Message>): seq<ChatMessage>
  {
    seq(|xs|, i requires 0 <= i < |xs| => ChatMessage(xs[i].role, xs[i].content))
  }

  /** get_history: the session's (role, content) pairs ordered by turn. */
  function History(log: seq<Message>, s: string): seq<ChatMessage>
  {
    Project(SortedSession(log, s))
  }

  // ---------------------------------------------------------------------
  // The session filter and the turn counter

  /** The session filter keeps exactly the records of that session. */
  lemma {:induction false} SessionRecordsMembers(log: seq<Message>, s: string)
    ensures |SessionRecords(log, s)| <= |log|
    ensures forall m :: m in SessionRecords(log, s) <==> m in log && m.session == s
    decreases |log|
  {
    if log != [] {
      SessionRecordsMembers(log[..|log| - 1], s);
      assert log == log[..|log| - 1] + [log[|log| - 1]];
    }
  }

  /** MAX(turn): None exactly when the session has no rows, otherwise a turn
      of one of its rows that no other of its rows exceeds. */
  lemma {:induction false} MaxTurnIsMaximum(log: seq<Message>, s: string)
    ensures MaxTurn(log, s).None? <==> forall i :: 0 <= i < |log| ==> log[i].session != s
    ensures MaxTurn(log, s).Some? ==>
              exists i :: 0 <= i < |log| && log[i].session == s && log[i].turn == MaxTurn(log, s).value
    ensures MaxTurn(log, s).Some? ==>
              forall i :: 0 <= i < |log| && log[i].session == s ==> log[i].turn <= MaxTurn(log, s).value
    decreases |log|
  {
    if log != [] {
      var init := log[..|log| - 1];
      MaxTurnIsMaximum(init, s);
      assert forall i :: 0 <= i < |init| ==> init[i] == log[i];
      if MaxTurn(init, s).Some? {
        var i :| 0 <= i < |init| && init[i].session == s && init[i].turn == MaxTurn(init, s).value;
        assert log[i] == init[i];
      }
    }
  }

  /** get_turn is 0 for a session without rows, and otherwise the largest turn among its rows. */
  lemma CurrentTurnIsMaximum(log: seq<Message>, s: string)
    ensures (forall i :: 0 <= i < |log| ==> log[i].session != s) ==> CurrentTurn(log, s) == 0
    ensures forall i :: 0 <= i < |log| && log[i].session == s ==> log[i].turn <= CurrentTurn(log, s)
    ensures (exists i :: 0 <= i < |log| && log[i].session == s) ==>
              exists i :: 0 <= i < |log| && log[i].session == s && log[i].turn == CurrentTurn(log, s)
  {
    MaxTurnIsMaximum(log, s);
  }

  /** Every record of a session is at a turn no later than the session's counter. */
  lemma TurnsAtMostCurrent(log: seq<Message>, s: string)
    ensures forall x :: x in SessionRecords(log, s) ==> x.turn <= CurrentTurn(log, s)
  {
    SessionRecordsMembers(log, s);
    CurrentTurnIsMaximum(log, s);
    forall x | x in SessionRecords(log, s) ensures x.turn <= CurrentTurn(log, s) {
      var i :| 0 <= i < |log| && log[i] == x;
    }
  }

  // ---------------------------------------------------------------------
  // Appending one record (save_msg) and what the queries then report

  /** Appending a record adds it to the end of its own session and to no other. */
  lemma SessionRecordsAppend(log: seq<Message>, m: Message, s: string)
    ensures SessionRecords(log + [m], s) == if m.session == s then SessionRecords(log, s) + [m] else SessionRecords(log, s)
  {
    assert (log + [m])[..|log|] == log;
  }

  /** A record of another session leaves a session's records as they were. */
  lemma SessionRecordsAppendOther(log: seq<Message>, m: Message, s: string)
    requires m.session != s
    ensures SessionRecords(log + [m], s) == SessionRecords(log, s)
  {
    SessionRecordsAppend(log, m, s);
  }

  /** A record at a turn not earlier than the counter becomes the new counter of
      its session and leaves every other session's counter as it was. */
  lemma CurrentTurnAppend(log: seq<Message>, m: Message, s: string)
    requires m.turn >= CurrentTurn(log, m.session)
    ensures CurrentTurn(log + [m], s) == if s == m.session then m.turn else CurrentTurn(log, s)
  {
    assert (log + [m])[..|log|] == log;
  }

  // ---------------------------------------------------------------------
  // ORDER BY turn as a stable sort

  /** Inserting into a sorted sequence keeps it sorted and adds exactly `m`. */
  lemma {:induction false} InsertByTurnSorted(xs: seq<Message>, m: Message)
    requires SortedByTurn(xs)
    ensures |InsertByTurn(xs, m)| == |xs| + 1
    ensures SortedByTurn(InsertByTurn(xs, m))
    ensures multiset(InsertByTurn(xs, m)) == multiset(xs) + multiset{m}
    decreases |xs|
  {
    if xs != [] && m.turn < xs[|xs| - 1].turn {
      var init, last := xs[..|xs| - 1], xs[|xs| - 1];
      assert xs == init + [last];
      assert SortedByTurn(init) by {
        forall i, j | 0 <= i < j < |init| ensures init[i].turn <= init[j].turn {
          assert init[i] == xs[i] && init[j] == xs[j];
        }
      }
      InsertByTurnSorted(init, m);
      var r' := InsertByTurn(init, m);
      forall i | 0 <= i < |r'| ensures r'[i].turn <= last.turn {
        assert r'[i] in multiset(init) + multiset{m};
        if r'[i] != m {
          assert r'[i] in init;
        }
      }
      assert InsertByTurn(xs, m) == r' + [last];
    }
  }

  /** The records of turn `k` in `xs + [x]`. */
  lemma AtTurnAppend(xs: seq<Message>, x: Message, k: int)
    ensures AtTurn(xs + [x], k) == AtTurn(xs, k) + (if x.turn == k then [x] else [])
  {
    assert (xs + [x])[..|xs|] == xs;
  }

  /** Inserting `m` puts it behind every record of its own turn and changes no other turn's records. */
  lemma {:induction false} InsertByTurnStable(xs: seq<Message>, m: Message, k: int)
    requires SortedByTurn(xs)
    ensures AtTurn(InsertByTurn(xs, m), k) == AtTurn(xs, k) + (if m.turn == k then [m] else [])
    decreases |xs|
  {
    if xs == [] || xs[|xs| - 1].turn <= m.turn {
      AtTurnAppend(xs, m, k);
    } else {
      var init, last := xs[..|xs| - 1], xs[|xs| - 1];
      assert xs == init + [last];
      assert SortedByTurn(init) by {
        forall i, j | 0 <= i < j < |init| ensures init[i].turn <= init[j].turn {
          assert init[i] == xs[i] && init[j] == xs[j];
        }
      }
      var r' := InsertByTurn(init, m);
      assert InsertByTurn(xs, m) == r' + [last];
      InsertByTurnStable(init, m, k);
      AtTurnAppend(r', last, k);
      AtTurnAppend(init, last, k);
      if m.turn == k {
        assert last.turn != k;
      }
    }
  }

  /** The ordered rows of a session after one more row is written. */
  lemma SortedSessionAppend(log: seq<Message>, m: Message, s: string)
    ensures SortedSession(log + [m], s) ==
              if m.session == s then InsertByTurn(SortedSession(log, s), m) else SortedSession(log, s)
  {
    assert (log + [m])[..|log|] == log;
  }

  /** ORDER BY turn sorts the session's rows and neither drops nor adds one. */
  lemma {:induction false} SortedSessionSorted(log: seq<Message>, s: string)
    ensures |SortedSession(log, s)| == |SessionRecords(log, s)|
    ensures SortedByTurn(SortedSession(log, s))
    ensures multiset(SortedSession(log, s)) == multiset(SessionRecords(log, s))
    decreases |log|
  {
    if log != [] {
      var init, last := log[..|log| - 1], log[|log| - 1];
      assert log == init + [last];
      SortedSessionSorted(init, s);
      SessionRecordsAppend(init, last, s);
      if last.session == s {
        InsertByTurnSorted(SortedSession(init, s), last);
      }
    }
  }

  /** The ordering is stable: the rows of each turn keep their write order. */
  lemma {:induction false} SortedSessionStable(log: seq<Message>, s: string, k: int)
    ensures AtTurn(SortedSession(log, s), k) == AtTurn(SessionRecords(log, s), k)
    decreases |log|
  {
    if log != [] {
      var init, last := log[..|log| - 1], log[|log| - 1];
      assert log == init + [last];
      SortedSessionStable(init, s, k);
      SessionRecordsAppend(init, last, s);
      if last.session == s {
        SortedSessionSorted(init, s);
        InsertByTurnStable(SortedSession(init, s), last, k);
        AtTurnAppend(SessionRecords(init, s), last, k);
      }
    }
  }

  /** Rows already written in turn order come back in write order. */
  lemma {:induction false} SortedSessionOfSorted(log: seq<Message>, s: string)
    requires SortedByTurn(SessionRecords(log, s))
    ensures SortedSession(log, s) == SessionRecords(log, s)
    decreases |log|
  {
    if log != [] {
      var init, last := log[..|log| - 1], log[|log| - 1];
      assert log == init + [last];
      SessionRecordsAppend(init, last, s);
      var recs := SessionRecords(init, s);
      if last.session == s {
        assert SessionRecords(log, s) == recs + [last];
        assert SortedByTurn(recs) by {
          forall i, j | 0 <= i < j < |recs| ensures recs[i].turn <= recs[j].turn {
            assert recs[i] == SessionRecords(log, s)[i] && recs[j] == SessionRecords(log, s)[j];
          }
        }
        SortedSessionOfSorted(init, s);
        if recs != [] {
          assert recs[|recs| - 1] == SessionRecords(log, s)[|recs| - 1];
          assert last == SessionRecords(log, s)[|recs|];
          assert recs[|recs| - 1].turn <= last.turn;
        }
        assert SortedSession(log, s) == InsertByTurn(recs, last);
      } else {
        SortedSessionOfSorted(init, s);
      }
    }
  }

  /** get_history lists exactly the session's records, by turn, ties in write
      order: it is the projection of a sequence that is sorted by turn, holds the
      session's records with their multiplicities, and has the records of each
      turn in the order they were written. */
  lemma HistoryIsStableSort(log: seq<Message>, s: string)
    ensures
      var sorted := SortedSession(log, s);
      && History(log, s) == Project(sorted)
      && SortedByTurn(sorted)
      && multiset(sorted) == multiset(SessionRecords(log, s))
      && (forall m :: m in sorted <==> m in log && m.session == s)
      && (forall k :: AtTurn(sorted, k) == AtTurn(SessionRecords(log, s), k))
  {
    var sorted := SortedSession(log, s);
    SortedSessionSorted(log, s);
    SessionRecordsMembers(log, s);
    forall k ensures AtTurn(sorted, k) == AtTurn(SessionRecords(log, s), k) {
      SortedSessionStable(log, s, k);
    }
    forall m ensures m in sorted <==> m in SessionRecords(log, s) {
      assert m in sorted <==> m in multiset(sorted);
    }
  }

  /** Projection distributes over appending one record. */
  lemma ProjectAppend(xs: seq<Message>, m: Message)
    ensures Project(xs + [m]) == Project(xs) + [ChatMessage(m.role, m.content)]
  {
  }

  /** get_history after save_msg of a record at a turn not earlier than the
      counter: the record's (role, content) comes last in its own session's history. */
  lemma HistoryAppendOwn(log: seq<Message>, m: Message)
    requires m.turn >= CurrentTurn(log, m.session)
    ensures History(log + [m], m.session) == History(log, m.session) + [ChatMessage(m.role, m.content)]
  {
    var s := m.session;
    var sorted := SortedSession(log, s);
    SortedSessionAppend(log, m, s);
    SortedSessionSorted(log, s);
    TurnsAtMostCurrent(log, s);
    if sorted != [] {
      assert sorted[|sorted| - 1] in multiset(SessionRecords(log, s));
    }
    assert SortedSession(log + [m], s) == sorted + [m];
    ProjectAppend(sorted, m);
  }

  /** save_msg leaves the history of every other session unchanged. */
  lemma HistoryAppendOther(log: seq<Message>, m: Message, s: string)
    requires s != m.session
    ensures History(log + [m], s) == History(log, s)
  {
    SortedSessionAppend(log, m, s);
  }

  /** save_msg of a record changes nothing that any other session's queries report. */
  lemma AppendLeavesOthers(log: seq<Message>, m: Message, other: string)
    requires m.session != other
    ensures SessionRecords(log + [m], other) == SessionRecords(log, other)
    ensures CurrentTurn(log + [m], other) == CurrentTurn(log, other)
    ensures History(log + [m], other) == History(log, other)
  {
    SessionRecordsAppendOther(log, m, other);
    assert (log + [m])[..|log|] == log;
    HistoryAppendOther(log, m, other);
  }
}
