# UpdateFactory — a verified model of the game server's response dispatcher

The server of the Congo board game answers each client request (an `Action`)
with a response object (an `Update`). `UpdateFactory` chooses the handler from
the request's `communicationType`, lets the rules engine play a requested move
on the one board the factory keeps, asks the database to register, log in,
search for users or send invitations, and fills in the response. This project
models that class and proves what its responses are.

The model has two layers:

- **Values** (`Responses`): each handler as a function from the dispatcher's
  state, the action's fields and the collaborators' answers to the response
  record, the action afterwards and the dispatcher's new state.
- **Objects** (`Factory`): `UpdateFactory` as a class with the source's mutable
  fields (`congoGame`, `communicationType`, `moveSucceeded`). Its methods follow
  the Java statements, including the mis-nested `if`/`else` of
  `buildUpdateBoard` and `updateTurn`. They write into `Update` and `Action`
  objects (module `Messages`), and each method is proved to leave exactly the
  state the value layer computes.

`Properties` then proves what the code amounts to:

- a legal move that leaves the lion in its castle is answered as
  `"errorInvalidMove"` with code 102;
- a capturing move ends the match;
- a stale `moveSucceeded` makes no difference once the first lion check fails;
- `updateTurn` never hands the turn to player two;
- `"updateBoard"` is never sent in any session;
- each response populates only its handler's fields;
- requests other than moves leave the dispatcher's state alone.

Files:

- `java.dfy` — `Nullable` (null), `Call` (a call that returns or throws),
  `Outcome` (a void call).
- `messages.dfy` — the `Update` and `Action` classes with their value views.
- `collaborators.dfy` — the rules engine and the library calls as functions
  (`Env`), and the per-request database answers (`Replies`).
- `responses.dfy` — the value layer.
- `factory.dfy` — the `UpdateFactory` class.
- `properties.dfy` — the lemmas.

## Model

| member | source | states |
|---|---|---|
| Responses.Route | server/src/main/java/webconnection/UpdateFactory.java:25-41 | the dispatch table: `requestMoves` reaches the move handler, `registerUser` registration, `requestBeginNewMatch` match creation, `invitation` the invitation builder, `quitMatch` the end-match builder, `attemptLogin` login, `attemptLogout` logout, `searchUser` search and `sendInvitation` the invitation status, each in both directions; exactly `invitationResponse` and `unregisterUser` get no response; every other type falls to the default branch |
| Responses.MessageFor | server/src/main/java/webconnection/UpdateFactory.java:45-54 | a message exists exactly for `updateBoard`, `errorInvalidMove` and `endMatch`; the three texts, the invalid-move one taken from the error catalogue for code 102 |
| Responses.ErrorCodeAfter | server/src/main/java/webconnection/UpdateFactory.java:48 | the error code changes only for `errorInvalidMove`, and then becomes 102 |
| Responses.TurnAfter | server/src/main/java/webconnection/UpdateFactory.java:57-66 | whatever the type, a turn held by either player ends with player one; any other turn is left alone |
| Responses.WinnerFor | server/src/main/java/webconnection/UpdateFactory.java:68-82 | the engine is consulted only for `endMatch`; active player 1 gives `playerOne`, 2 gives `playerTwo`, anything else null; an engine failure propagates, in both directions |
| Responses.WrapUp | server/src/main/java/webconnection/UpdateFactory.java:84-101 | type, version 0, match id, piece id, board, message and error code are filled; `playerName` is the name the action arrived with; it throws exactly on an empty move list or an engine failure; otherwise the winner equals the action's new `playerName`, and the action changes nowhere else |
| Responses.WrapUpOfBlank | server/src/main/java/webconnection/UpdateFactory.java:84-101 | on a fresh `Update`, the full response record field by field, with every field the wrap-up does not write at its default |
| Responses.CheckMove | server/src/main/java/webconnection/UpdateFactory.java:110-117 | the board and `moveSucceeded` change only when the first lion check holds and `processMove` returns, and then take the engine's result |
| Responses.MoveResponseType | server/src/main/java/webconnection/UpdateFactory.java:118-125 | the type is never `updateBoard`; it is `errorInvalidMove` exactly when the final lion flag is set and `endMatch` exactly when it is not |
| Responses.MoveStep | server/src/main/java/webconnection/UpdateFactory.java:103-138 | a move request always gets a response typed `endMatch`, `errorInvalidMove` or the catch block's `ErrorInvalidMove`; only the action's `playerName` can change; the remembered type becomes one of the two move outcomes or stays; no moves gives the catch-block response and no state change |
| Responses.RegistrationResponse | server/src/main/java/webconnection/UpdateFactory.java:140-156 | null exactly when the database throws; otherwise `registrationSuccess` with the action's e-mail and user name and the fixed message |
| Responses.LoginResponse | server/src/main/java/webconnection/UpdateFactory.java:158-172 | null exactly when the login throws; otherwise `loginSuccess` with the database's user name and the action's e-mail |
| Responses.LogoutResponse | server/src/main/java/webconnection/UpdateFactory.java:174-179 | `logoutSuccess` with the fixed message |
| Responses.NewMatchResponse | server/src/main/java/webconnection/UpdateFactory.java:181-197 | null exactly when creating the game or reading its board throws; otherwise `beginNewMatch` with the decimal match number, the new board, and player one to move |
| Responses.InvitationResponse | server/src/main/java/webconnection/UpdateFactory.java:199-206 | `invitation` with the placeholder sender, recipient and time |
| Responses.EndMatchResponse | server/src/main/java/webconnection/UpdateFactory.java:208-217 | `endMatch` with the placeholder match id, `quit`, winner `player1`, loser `player2` and end time |
| Responses.SearchResponse | server/src/main/java/webconnection/UpdateFactory.java:219-237 | `searchResult` with the action's user name; the user counts as not found exactly when the database answers `user not found`, so a failed search reports a found user |
| Responses.InvitationSentResponse | server/src/main/java/webconnection/UpdateFactory.java:239-253 | `invitationSentStatus`; sent exactly when the database call completes; the status message is the exception's text on failure and null otherwise |
| Responses.Respond | server/src/main/java/webconnection/UpdateFactory.java:23-41 | each recognised type is answered by its own builder: a move request by `MoveStep`, the other eight by `RegistrationResponse`, `NewMatchResponse`, `InvitationResponse`, `EndMatchResponse`, `LoginResponse`, `LogoutResponse`, `SearchResponse` and `InvitationSentResponse`; only a move request changes the dispatcher or the action; the response is null exactly for the two unanswered types and the failures of registration, login and match creation; an unknown type gets a default `Update` |
| Messages.Update.constructor | server/src/main/java/webconnection/UpdateFactory.java:40 | a new `Update` holds the default of every field |
| Factory.UpdateFactory.constructor | server/src/main/java/webconnection/UpdateFactory.java:16-21 | the shared board starts as the engine's initial board, with no remembered type and `moveSucceeded` false |
| Factory.UpdateFactory.GetUpdate | server/src/main/java/webconnection/UpdateFactory.java:23-41 | the dispatcher's new state, the action afterwards and the fresh response object are those of `Respond` |
| Factory.UpdateFactory.ConstructMessage | server/src/main/java/webconnection/UpdateFactory.java:45-54 | returns `MessageFor` and sets only the error code, as `ErrorCodeAfter` |
| Factory.UpdateFactory.UpdateTurn | server/src/main/java/webconnection/UpdateFactory.java:57-66 | the turn written and returned is `TurnAfter` of the update's type and its old turn |
| Factory.UpdateFactory.FindWinner | server/src/main/java/webconnection/UpdateFactory.java:68-82 | returns `WinnerFor` of the update's board |
| Factory.UpdateFactory.WrapUpResponse | server/src/main/java/webconnection/UpdateFactory.java:84-101 | each of the ten written fields takes the value the source assigns, with `playerName` copied before the action's is overwritten; it throws exactly as `WrapUp` does; the winner goes to both objects; nothing else changes |
| Factory.UpdateFactory.ConsultEngine | server/src/main/java/webconnection/UpdateFactory.java:110-117 | the board, `moveSucceeded` and the final lion flag are those of `CheckMove` |
| Factory.UpdateFactory.BuildUpdateBoard | server/src/main/java/webconnection/UpdateFactory.java:103-138 | the dispatcher's new state, the action and the fresh response are those of `MoveStep` |
| Factory.UpdateFactory.WrapUpBlank | server/src/main/java/webconnection/UpdateFactory.java:107-128 | wrapping up a default `Update` yields the record, action and exception flag of `WrapUp` |
| Factory.UpdateFactory.MoveFaultUpdate | server/src/main/java/webconnection/UpdateFactory.java:130-137 | a fresh response typed `ErrorInvalidMove` with the board-not-found message and nothing else |
| Factory.UpdateFactory.RegisterUser | server/src/main/java/webconnection/UpdateFactory.java:140-156 | null or a fresh response exactly as `RegistrationResponse` |
| Factory.UpdateFactory.LogIn | server/src/main/java/webconnection/UpdateFactory.java:158-172 | null or a fresh response exactly as `LoginResponse` |
| Factory.UpdateFactory.BuildLogoutSuccess | server/src/main/java/webconnection/UpdateFactory.java:174-179 | a fresh response equal to `LogoutResponse` |
| Factory.UpdateFactory.CreateNewMatch | server/src/main/java/webconnection/UpdateFactory.java:181-197 | null or a fresh response exactly as `NewMatchResponse` |
| Factory.UpdateFactory.BuildInvitation | server/src/main/java/webconnection/UpdateFactory.java:199-206 | a fresh response equal to `InvitationResponse` |
| Factory.UpdateFactory.BuildEndMatch | server/src/main/java/webconnection/UpdateFactory.java:208-217 | a fresh response equal to `EndMatchResponse` |
| Factory.UpdateFactory.BuildSearchResult | server/src/main/java/webconnection/UpdateFactory.java:219-237 | a fresh response equal to `SearchResponse` |
| Factory.UpdateFactory.BuildInvitationSentStatus | server/src/main/java/webconnection/UpdateFactory.java:239-253 | a fresh response equal to `InvitationSentResponse` |
| Properties.LegalMoveKeepingLionIsReportedInvalid | server/src/main/java/webconnection/UpdateFactory.java:110-127 | a legal move after which the lion is still in its castle is answered `errorInvalidMove` with code 102 and no winner, on the moved board, with `moveSucceeded` set |
| Properties.CapturingMoveEndsMatch | server/src/main/java/webconnection/UpdateFactory.java:110-127 | a legal move that captures the lion is answered `endMatch` with the game-over message; the winner named by the active player goes to both the response and the action |
| Properties.RejectedMoveIsReportedInvalid | server/src/main/java/webconnection/UpdateFactory.java:110-127 | a rejected move is answered `errorInvalidMove` with code 102; `moveSucceeded` is cleared; the board is unchanged when the engine leaves rejected moves unplayed |
| Properties.MissingLionEndsMatchWithoutMoving | server/src/main/java/webconnection/UpdateFactory.java:110-127 | when the first check finds no lion the move is not played and the match is reported over, whatever `moveSucceeded` an earlier request left; the catch block answers exactly when the engine cannot name the active player |
| Properties.EngineFailureGivesFault | server/src/main/java/webconnection/UpdateFactory.java:109-137 | a request without moves, or a lion check or `processMove` that throws before the response type is chosen, gives the catch-block response and leaves the action and the remembered type alone |
| Properties.WinnerFailureAfterCaptureGivesFault | server/src/main/java/webconnection/UpdateFactory.java:118-137 | when `findActivePlayer` throws after a capture, the catch-block response is returned, the action is unchanged, and the dispatcher keeps the moved board, `moveSucceeded` true and the remembered type `endMatch` |
| Properties.MoveWinnerMatchesAction | server/src/main/java/webconnection/UpdateFactory.java:89-98 | in a completed move response the winner equals the action's new `playerName`, and `playerName` keeps the sender's name |
| Properties.TurnNeverPassesToPlayerTwo | server/src/main/java/webconnection/UpdateFactory.java:57-66 | the turn ends on player two only when both players have the same name |
| Properties.FreshTurn | server/src/main/java/webconnection/UpdateFactory.java:57-66 | on a fresh `Update` the turn stays null unless a player name is null |
| Properties.ResponsePopulatesOnlyItsFields | server/src/main/java/webconnection/UpdateFactory.java:23-253 | every response leaves all fields outside its handler's own at their defaults |
| Properties.MoveResponseFields | server/src/main/java/webconnection/UpdateFactory.java:84-137 | a move response populates only the ten fields `wrapUpResponse` writes |
| Properties.Run | server/src/main/java/webconnection/UpdateFactory.java:23-41 | a session of requests to one dispatcher yields one response per request |
| Properties.RespondNeverAnnouncesBoardUpdate | server/src/main/java/webconnection/UpdateFactory.java:118-125 | no handler answers `updateBoard`; the remembered type only takes the two move outcomes |
| Properties.RunNeverAnnouncesBoardUpdate | server/src/main/java/webconnection/UpdateFactory.java:118-125 | in any session no response is typed `updateBoard`, and the dispatcher never remembers that type |
| Properties.RunWithoutMovesKeepsState | server/src/main/java/webconnection/UpdateFactory.java:10-14 | a session without move requests leaves the board, `moveSucceeded` and the remembered type as they were |
| Properties.StepKeepsBoardOn | server/src/main/java/webconnection/UpdateFactory.java:110-112 | with an engine that leaves rejected moves unplayed, a request whose move is not accepted on the board it meets leaves the board alone |
| Properties.SessionKeepsBoard | server/src/main/java/webconnection/UpdateFactory.java:110-112 | with such an engine, a session in which no request has its move accepted on the board it meets ends on the board it started from |

## Left out

- The rules engine (`GameBoard`, `Game`), the database (`DatabaseHandler`), `ServerError.getErrorMessage` and `Integer.toString` are not part of this model. The engine and the two library calls are deterministic functions of their arguments (`Env`); the database's and new-game's answers are supplied per request (`Replies`); `e.toString()` is the text carried by a failed call.
- `GameBoard.getBoardForDatabase` is the identity on the board snapshot. `processMove` updates the shared board in place; here it returns the board it leaves. A `processMove` that throws is taken to leave the board unchanged.
- Java's `==` on strings at lines 58, 59, 62 and 72 is modelled as value equality. At 58 and 72 one side is a literal assigned by this class, and in the flow of `buildUpdateBoard` the turn starts null, so the results agree there. A call of `updateTurn` with a non-null turn that is equal to, but not the same object as, a player's name is not modelled.
- A null `communicationType` (the `switch` at line 25 throws) and a null search answer (`equals` at line 229 throws, outside the `try`) are not modelled: `GetUpdate` requires a type, and `Call<string>` cannot be null.
- A null `desiredMoves` is treated like an empty one: both throw inside the `try` and give the catch-block response.
- Printing to the console and the unused fields `gameBoard` and `game` (lines 12-13) are left out. The `db` field and the `Game` objects of lines 105 and 183 do not appear as objects: their calls are the `Env` functions and the per-request `Replies`. Threads are not modelled: each request runs to completion before the next.
- `Update.java` and `Action.java` are not part of this model. The defaults of a new `Update` are taken to be Java's (null, 0, false), and only the fields this class reads or writes are modelled.
- Factory.UpdateFactory.ConsultEngine and Factory.UpdateFactory.WrapUpBlank are not source methods. They split `buildUpdateBoard` at its engine calls and at its call of `wrapUpResponse`, and do the same statements in the same order.
- Properties.Run: a session is modelled by its responses and the dispatcher's final state; the actions, of which only `playerName` changes, are not collected.
