/**
 The shared message table as an object: one append operation that commits a
 row and two read-only queries over the rows committed so far.
 */
module MessageStore {
  import opened MessageLog

  class Store {
    /** The rows of the `messages` table, in the order they were inserted. */
    var log: seq<Message>

    /** A freshly created, empty table. */
    constructor ()
      ensures log == []
    {
      log := [];
    }

    /** save_msg: inserts one row and commits it; nothing already stored changes. */
    method SaveMsg(session: string, turn: int, role: string, content: string)
      modifies this
      ensures log == old(log) + [Message(session, turn, role, content)]
    {
      log := log + [Message(session, turn, role, content)];
    }

    /** get_turn: 0 for a session without rows, otherwise its largest turn. */
    method GetTurn(session: string) returns (t: int)
      ensures (forall i :: 0 <= i < |log| ==> log[i].session != session) ==> t == 0
      ensures forall i :: 0 <= i < |log| && log[i].session == session ==> log[i].turn <= t
      ensures (exists i :: 0 <= i < |log| && log[i].session == session) ==>
                exists i :: 0 <= i < |log| && log[i].session == session && log[i].turn == t
      ensures t == CurrentTurn(log, session)
    {
      t := CurrentTurn(log, session);
      CurrentTurnIsMaximum(log, session);
    }

    /** get_history: the session's (role, content) pairs ordered by turn. */
    method GetHistory(session: string) returns (h: seq<ChatMessage>)
      ensures h == History(log, session)
      ensures |h| == |SessionRecords(log, session)|
    {
      h := History(log, session);
      SortedSessionSorted(log, session);
    }
  }
}
