# Francie turn engine in Dafny

Francie is a French tutoring chat backend. Each learner session gets a bounded
number of turns. The engine reads the session's turn counter from an
append-only message table. It then does one of two things:
- A concluded session is answered with a fixed closing line.
- Otherwise the engine writes the learner's message, re-reads the session's
  history, estimates the learner's level from the word count of the text, asks
  a completion provider for a reply, writes that reply and returns
  `{bot, turn, done}`.

The model has six modules:

- `Wrappers`: `Option` and `Result`.
- `MessageLog`: the rows of the `messages` table as a `seq<Message>`, and the
  queries on them as functions:
  - the rows of one session (`SessionRecords`);
  - the largest turn, or 0 when there is none (`CurrentTurn`);
  - the rows ORDER BY turn, ties kept in write order (`SortedSession`);
  - their (role, content) projection (`History`).
- `MessageStore`: the table as an object. Class `Store` has a `log` field that
  `SaveMsg` reassigns, and two read-only queries, `GetTurn` and `GetHistory`.
- `Level`: `lvl_hint`. Text is split the way Python's argument-less
  `str.split()` splits it (`Words`, with Python's set of whitespace
  characters). The word count is then mapped to "A1" / "A2" / "B1".
- `Gateway`: `call_llm`. It checks the key, then the provider, then assembles
  the request: the system prompt annotated with the level, followed by the
  whole history. The remote completion is an oracle parameter
  `seq<ChatMessage> -> Result<string, string>`.
- `Orchestrator`: the `/turn` handler in two forms:
  - a function `TurnSpec` from the old log to the result and the new log;
  - an imperative method `Turn` on a `Store`, proved equal to `TurnSpec`.

  The properties are lemmas about `TurnSpec` and about `Run`, which chains
  successive calls on one session:
  - turn counting;
  - the terminal state;
  - isolation of other sessions;
  - the no-rollback gap;
  - the shape invariant of a session's rows.

Configuration (`MAX_TURNS`, `LLM_API_KEY`, `LLM_PROVIDER`, `SYSTEM_PROMPT`)
becomes the parameter `Config`.

Two behaviours of the code are worth stating plainly:

- The API key is checked by the `assert` at the top of `call_llm`
  (app.py:57), which runs after `save_msg` has already written the learner's
  message (app.py:79). A missing key therefore fails the call with that row
  left in the table (`Orchestrator.MissingKeyAfterWrite`).
- The two roles written to the table are "user" and "assistant"
  (`MessageLog.UserRole`, `MessageLog.AssistantRole`).

Assumption: `ORDER BY turn` (app.py:49) has no tie-breaker. The model takes
rows of equal turn in write order, i.e. a stable sort. SQLite gives no such
guarantee.

## Model

| member | source | states |
|---|---|---|
| MessageLog.SessionRecordsMembers | app.py:39 | The rows a session query sees are exactly the log's rows with that session id, none dropped and none added |
| MessageLog.MaxTurnIsMaximum | app.py:39 | MAX(turn) over a session is absent iff the session has no rows; otherwise it is the turn of one of its rows and no row of the session has a larger turn |
| MessageLog.CurrentTurnIsMaximum | app.py:38-41 | get_turn is 0 for a session without rows, otherwise the largest turn of the session's rows: an upper bound that some row attains |
| MessageLog.TurnsAtMostCurrent | app.py:38-41 | Every row of a session has a turn no greater than get_turn of that session |
| MessageLog.SessionRecordsAppend | app.py:43-46 | One-step unfolding of the session filter, used by the lemmas below: inserting one row extends its own session's rows by that row at the end and leaves every other session's rows as they were |
| MessageLog.CurrentTurnAppend | app.py:38-46 | Inserting a row whose turn is not below the session's counter moves that counter to the row's turn |
| MessageLog.InsertByTurnSorted | app.py:49 | Inserting a row into rows sorted by turn keeps them sorted, adds one row and is a permutation of the rows plus the new one |
| MessageLog.InsertByTurnStable | app.py:49 | That insertion keeps the rows of each turn in their order, with the new row last among those of its turn |
| MessageLog.SortedSessionSorted | app.py:49 | The session's rows ORDER BY turn are sorted by turn, as many as the session's rows, and a permutation of them |
| MessageLog.SortedSessionStable | app.py:49 | In the ordered rows, the rows of each turn are in write order |
| MessageLog.SortedSessionOfSorted | app.py:49 | Rows already written in turn order come back from ORDER BY turn in write order |
| MessageLog.HistoryIsStableSort | app.py:48-50 | get_history is the (role, content) projection of a sequence that is sorted by turn, holds the session's rows with their multiplicities, contains a row iff the row belongs to the session, and keeps the rows of each turn in write order |
| MessageLog.HistoryAppendOwn | app.py:43-50 | After a row at or above the counter is written, get_history of its session is the old history with that row's (role, content) appended |
| MessageLog.HistoryAppendOther | app.py:43-50 | Helper for AppendLeavesOthers: writing a row leaves the history of every other session unchanged |
| MessageLog.AppendLeavesOthers | app.py:43-50 | Writing a row leaves every other session's rows, counter and history unchanged |
| MessageStore.Store.constructor | app.py:27-29 | A freshly created table has no rows |
| MessageStore.Store.SaveMsg | app.py:43-46 | save_msg appends exactly the one row (session, turn, role, content) to the table, and no existing row changes |
| MessageStore.Store.GetTurn | app.py:38-41 | get_turn returns 0 when the session has no rows; otherwise it returns a turn some row of the session has, and no row of the session has a larger one |
| MessageStore.Store.GetHistory | app.py:48-50 | get_history returns the session's history, one entry per row of the session |
| Level.WordEnd | app.py:53 | The end of a word is within the text, no separator occurs before it, and it is the end of the text or a separator |
| Level.Words | app.py:53 | text.split() yields only non-empty tokens that contain no whitespace |
| Level.WordsAroundSpace | app.py:53 | Splitting text around a whitespace character gives the tokens on its left followed by those on its right |
| Level.WordsOfJoin | app.py:53 | Splitting non-empty whitespace-free words joined by blanks gives back exactly those words |
| Level.LevelHint | app.py:52-54 | lvl_hint always returns one of "A1", "A2", "B1" |
| Level.LevelOfSentence | app.py:52-54 | For a sentence of n words, lvl_hint is "A1" iff n < 8, "A2" iff 8 <= n < 18, and "B1" iff n >= 18 |
| Level.BlankIsA1 | app.py:52-54 | Text made only of whitespace, the empty text included, has no tokens and is level "A1" |
| Level.LevelMonotone | app.py:52-54 | Appending a blank and more text never lowers the level |
| Level.ShortTextsAreA1 | app.py:52-54 | The empty text and the one-word text "Salut" are level "A1" |
| Gateway.ParseBuildRequest | app.py:61 | Reading a built request back yields exactly the level and the history it was built from |
| Gateway.BuildParsedRequest | app.py:61 | Every request that reads back as a system message for the prompt followed by a history is the request built from the level and history read |
| Gateway.BuildRequestInjective | app.py:61 | Two requests for one prompt are equal iff their levels and their histories are equal |
| Gateway.CallLlm | app.py:56-68 | call_llm fails with the missing-key error iff the key is empty. It fails with the unknown-provider error iff the key is set and the provider is not "mistral" in any case. Otherwise it succeeds iff the oracle answers the assembled request: a success carries the oracle's text, and a failure is an upstream error carrying the oracle's detail |
| Gateway.IsMistralSpellings | app.py:58 | The provider test accepts exactly the seven-letter spellings of "mistral" in any mix of upper and lower case |
| Gateway.ConfigFailureIgnoresOracle | app.py:57-68 | A call with an empty key or an unknown provider fails whatever the oracle would answer, and the same way for every oracle |
| Orchestrator.TurnSpec | app.py:75-83 | A call never changes or removes a row already in the log, only appends; the log changes iff the session is still active; a failed call leaves exactly one new row; a reply is done exactly when its turn has reached MAX_TURNS |
| Orchestrator.Turn | app.py:75-83 | The imperative handler (read the counter, write, re-read, call, write) leaves the table and returns the result exactly as TurnSpec prescribes from the old table |
| Orchestrator.ConcludedTurn | app.py:76-78 | A session whose counter has reached MAX_TURNS gets the closing line at its own counter with done = true. The log is unchanged, and the result depends neither on the text nor on the oracle |
| Orchestrator.ActiveTurn | app.py:79-83 | An active call hands call_llm the old history with the learner's message appended. On failure the log gains only the learner's row at t+1. On success it gains that row and the reply's row at t+1, and the result is {bot, t+1, t+1 >= MAX_TURNS}. Either way the counter becomes t+1 |
| Orchestrator.ActiveTurnFailure | app.py:79-81 | Helper for ActiveTurn: a failing provider call ends the active call with its error, leaving the log with the learner's row and nothing else |
| Orchestrator.ActiveTurnSuccess | app.py:79-83 | Helper for ActiveTurn: a successful provider call appends the learner's and the reply's rows at t+1 and returns {bot, t+1, t+1 >= MAX_TURNS} |
| Orchestrator.ActiveTurnCounter | app.py:76-82 | Helper for ActiveTurn: after an active call, success or failure, get_turn of the session is t+1 |
| Orchestrator.MissingKeyAfterWrite | app.py:57-81 | With an empty key an active call fails with the missing-key error, after the learner's row has been written |
| Orchestrator.FailedTurnThenRetry | app.py:76-82 | A failed call is not rolled back. The retry sees counter t+1 and writes its learner row at t+2, or returns the closing line at t+1 if the budget is used up |
| Orchestrator.OtherSessionsUnchanged | app.py:79-82 | A call leaves the rows, the counter and the history of every other session unchanged |
| Orchestrator.ActiveTurnRequest | app.py:61-81 | With a usable configuration the oracle is asked for [system message at the learner's level] + old history + [learner's message]. The call succeeds iff the oracle does, with the oracle's text; otherwise it fails with an upstream error carrying the oracle's detail |
| Orchestrator.ShapedRoles | app.py:79-82 | A session written this way has only "user" and "assistant" rows |
| Orchestrator.ShapedReplies | app.py:79-82 | In such a session each reply comes directly after the learner row of its own turn |
| Orchestrator.ShapedOrdered | app.py:79-82 | Such a session's rows are sorted by turn, and each learner row is later than every row before it |
| Orchestrator.ShapedAppendUser | app.py:79 | A learner row later than every row of the session keeps the session shaped |
| Orchestrator.ShapedAppendAssistant | app.py:82 | A reply at the turn of the learner row just before it keeps the session shaped |
| Orchestrator.OwnRecordsAfterFailure | app.py:79-81 | Helper for OwnSessionKeepsShape: a failed active call adds exactly the learner's row at t+1 to its session |
| Orchestrator.OwnRecordsAfterSuccess | app.py:79-82 | Helper for OwnSessionKeepsShape: a successful active call adds exactly the learner's row and then the reply's row, both at t+1, to its session |
| Orchestrator.OwnSessionKeepsShape | app.py:76-82 | A call keeps its own session shaped |
| Orchestrator.TurnKeepsShape | app.py:76-82 | A call keeps every session of the log shaped |
| Orchestrator.ShapedHistory | app.py:48-50 | In a shaped session get_history is the session's rows in write order, and every reply in it directly follows a learner message |
| Orchestrator.ShapedOneReplyPerTurn | app.py:79-82 | In a shaped session no two replies share a turn |
| Orchestrator.RunKeepsShape | app.py:75-83 | Any number of successive calls keep every session shaped |
| Orchestrator.EmptyLogShaped | app.py:27-29 | The freshly created, empty table is shaped |
| Orchestrator.FreshRunShaped | app.py:75-83 | Every log that calls on a session build from the empty table is shaped |
| Orchestrator.ConcludedRun | app.py:76-78 | Once concluded, every further call returns the identical closing reply and the log never changes |
| Orchestrator.AnsweredTurn | app.py:76-83 | When the provider always answers, one call succeeds, reports the next counter value (capped once concluded), says done exactly when the budget is used up, and leaves the counter at that value |
| Orchestrator.RunCountsTurns | app.py:76-83 | When the provider always answers, call k of a run reports turn min(t0 + k + 1, MAX_TURNS) (or t0 once concluded), done exactly when the budget is used up, and the final counter is the same function of the number of calls |
| Orchestrator.TurnCounter | app.py:76-82 | Whatever the provider answers, one call leaves the counter at TurnAfter(t, 1): t+1 while active, t once concluded |
| Orchestrator.RunCounter | app.py:76-82 | No rollback over a whole run: whatever the provider answers, the final counter is TurnAfter(t0, number of calls), failed calls counting like answered ones |
| Orchestrator.DoneConcludes | app.py:77-83 | A reply with done = true leaves the session concluded with its counter at the reported turn, so later calls get the closing line at that turn |
| Orchestrator.RunSplit | app.py:75-83 | Calls on xs and then on ys give the results and the log of the calls on xs + ys |
| Orchestrator.TwoTurnBudget | app.py:76-83 | With MAX_TURNS = 2 and an answering provider, a fresh session gets turn 1 not done, then turn 2 done, then the closing line at turn 2 |

## Left out

- FastAPI routing, the request and response models, `JSONResponse` and the `home` route reading `index.html` (app.py:32-36, 70-72): HTTP and file plumbing. A result is modelled as `Result<TurnReply, LlmError>`. An exception the handler lets escape is a `Failure`.
- `load_dotenv` and `os.getenv` (app.py:7-11): `MAX_TURNS`, the key and the provider are fields of `Config`. The defaults (10, "", "mistral") are left to the caller, and so is the `int()` parse of `MAX_TURNS`.
- The sqlite connection, table creation, `commit` and durability (app.py:25-30, 46): the table is an in-memory sequence. Storage errors are not modelled, and neither is a crash between two writes.
- The `ts` column filled by `time.time()` (app.py:45): it is nondeterministic and no query reads it.
- The HTTP request to the provider (app.py:59-60, 62-66), that is, the model name, `temperature`, headers, the 30-second timeout, `raise_for_status` and the extraction of `choices[0].message.content`: all inside the oracle. Any failure there is one `Upstream(detail)`.
- The oracle is a function, so two identical requests get identical answers. A provider that answers differently over time is modelled by passing a different oracle to each call.
- The text of `SYSTEM_PROMPT` (app.py:13-23): an opaque `systemPrompt` string. Its wind-down instruction is prompt content, not engine logic.
- Concurrent requests on one session, which race on `get_turn`: the model is sequential.
- `python -O` removes the key `assert` (app.py:57). The model assumes assertions are enabled.
- Gateway.IsMistral: lowers only A-Z, where the code uses Python's full `str.lower()`. Both accept the same providers. The target "mistral" is seven ASCII letters, and the only non-ASCII characters whose lowercase contains an ASCII letter are U+0130 (lowercase "i" followed by U+0307, and U+0307 does not occur in "mistral") and U+212A (lowercase "k", which "mistral" does not contain).
- MessageLog.CurrentTurn: the table has an INTEGER `turn` column that is never NULL here. `row[0] if row and row[0] else 0` is therefore the maximum, or 0 when there is no row (a maximum of 0 also gives 0). Other column types are not modelled.
- MessageLog.SortedSession: ties in `ORDER BY turn` are assumed to keep write order (a stable sort). SQLite does not promise this.
