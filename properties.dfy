/** What the dispatcher's responses amount to: the outcome of a move request
    in each situation the engine can report, the turn and winner fields, the
    fields each handler populates, and what a sequence of requests to one
    dispatcher can and cannot produce. */
module Properties {
  import opened Java
  import opened Messages
  import opened Collaborators
  import opened Responses

  // ---------------------------------------------------------- move requests

  /** A legal move that leaves the opponent's lion in its castle is answered
      as an invalid move, with error code 102 and no winner, although the
      board has moved on. */
  lemma LegalMoveKeepingLionIsReportedInvalid(s: FactoryState, a: ActionRecord, env: Env, after: Board)
    requires |a.desiredMoves| > 0
    requires env.lionInCastle(s.board, a.desiredMoves[0]) == Returns(true)
    requires env.processMove(a.desiredMoves, s.board) == Returns(Move(true, after))
    requires env.lionInCastle(after, a.desiredMoves[0]) == Returns(true)
    ensures var r := MoveStep(s, a, env);
      && r.state == FactoryState(after, true, Ref("errorInvalidMove"))
      && r.response.value.communicationType == Ref("errorInvalidMove")
      && r.response.value.errorCode == InvalidMoveCode
      && r.response.value.message == Ref(env.errorMessage(InvalidMoveCode))
      && r.response.value.updatedBoard == Ref(after)
      && r.response.value.winnerName == Null
      && r.action == a.(playerName := Null)
  {
  }

  /** A legal move that captures the lion ends the match; the winner named
      by the engine's active player goes to both the response and the action. */
  lemma CapturingMoveEndsMatch(s: FactoryState, a: ActionRecord, env: Env, after: Board, active: int)
    requires |a.desiredMoves| > 0
    requires env.lionInCastle(s.board, a.desiredMoves[0]) == Returns(true)
    requires env.processMove(a.desiredMoves, s.board) == Returns(Move(true, after))
    requires env.lionInCastle(after, a.desiredMoves[0]) == Returns(false)
    requires env.findActivePlayer(Ref(after), a.desiredMoves[0]) == Returns(active)
    ensures var r := MoveStep(s, a, env);
      var winner := if active == 1 then Ref("playerOne") else if active == 2 then Ref("playerTwo") else Null;
      && r.state == FactoryState(after, true, Ref("endMatch"))
      && r.response.value.communicationType == Ref("endMatch")
      && r.response.value.message == Ref(GameOverText)
      && r.response.value.errorCode == 0
      && r.response.value.winnerName == winner
      && r.response.value.playerName == a.playerName
      && r.action == a.(playerName := winner)
  {
  }

  /** A move the engine rejects is answered as an invalid move, the lion is
      not looked at again, and `moveSucceeded` is cleared for later requests.
      When the engine keeps its side of the contract the board is unchanged. */
  lemma RejectedMoveIsReportedInvalid(s: FactoryState, a: ActionRecord, env: Env, after: Board)
    requires |a.desiredMoves| > 0
    requires env.lionInCastle(s.board, a.desiredMoves[0]) == Returns(true)
    requires env.processMove(a.desiredMoves, s.board) == Returns(Move(false, after))
    ensures var r := MoveStep(s, a, env);
      && r.state == FactoryState(after, false, Ref("errorInvalidMove"))
      && r.response.value.communicationType == Ref("errorInvalidMove")
      && r.response.value.errorCode == InvalidMoveCode
      && (RejectsWithoutChange(env) ==> r.state.board == s.board)
  {
  }

  /** When the first check finds no lion the move is not played, and the
      match is reported over whatever `moveSucceeded` an earlier request left:
      a stale `true` only repeats the same check. The request fails with the
      catch-block response exactly when the engine cannot name the player. */
  lemma MissingLionEndsMatchWithoutMoving(s: FactoryState, a: ActionRecord, env: Env)
    requires |a.desiredMoves| > 0
    requires env.lionInCastle(s.board, a.desiredMoves[0]) == Returns(false)
    ensures var r := MoveStep(s, a, env);
      && r.state == FactoryState(s.board, s.moveSucceeded, Ref("endMatch"))
      && (r.response == Ref(MoveFault) <==> env.findActivePlayer(Ref(s.board), a.desiredMoves[0]) == Throws)
      && (r.response != Ref(MoveFault) ==>
            r.response.value.communicationType == Ref("endMatch") &&
            r.response.value.updatedBoard == Ref(s.board))
  {
  }

  /** A request without moves, or an engine call that throws before the
      response type is chosen (either lion check or `processMove`), gives the
      catch-block response and leaves the action and the remembered response
      type alone. */
  lemma EngineFailureGivesFault(s: FactoryState, a: ActionRecord, env: Env)
    requires var moves := a.desiredMoves;
      || |moves| == 0
      || env.lionInCastle(s.board, moves[0]) == Throws
      || (env.lionInCastle(s.board, moves[0]) == Returns(true) && env.processMove(moves, s.board) == Throws)
      || (env.lionInCastle(s.board, moves[0]) == Returns(true) && env.processMove(moves, s.board).Returns? &&
          env.processMove(moves, s.board).value.legal &&
          env.lionInCastle(env.processMove(moves, s.board).value.after, moves[0]) == Throws)
    ensures var r := MoveStep(s, a, env);
      && r.response == Ref(MoveFault) && r.action == a
      && r.state.communicationType == s.communicationType
  {
  }

  /** When the engine cannot name the active player after a capture, the
      catch block answers, but the dispatcher has already played the move and
      remembers `"endMatch"` as its response type. */
  lemma WinnerFailureAfterCaptureGivesFault(s: FactoryState, a: ActionRecord, env: Env, after: Board)
    requires |a.desiredMoves| > 0
    requires env.lionInCastle(s.board, a.desiredMoves[0]) == Returns(true)
    requires env.processMove(a.desiredMoves, s.board) == Returns(Move(true, after))
    requires env.lionInCastle(after, a.desiredMoves[0]) == Returns(false)
    requires env.findActivePlayer(Ref(after), a.desiredMoves[0]) == Throws
    ensures MoveStep(s, a, env) == Step(FactoryState(after, true, Ref("endMatch")), Ref(MoveFault), a)
  {
  }

  /** A move response that was not replaced by the catch block names the
      same winner as the action now carries, and keeps in `playerName` the
      name the action arrived with. */
  lemma MoveWinnerMatchesAction(s: FactoryState, a: ActionRecord, env: Env)
    requires MoveStep(s, a, env).response != Ref(MoveFault)
    ensures var r := MoveStep(s, a, env);
      && r.response.value.winnerName == r.action.playerName
      && r.response.value.playerName == a.playerName
  {
  }

  // ------------------------------------------------------------------- turn

  /** `updateTurn` never hands the turn to player two: the only way to end on
      player two is for both players to have the same name. */
  lemma TurnNeverPassesToPlayerTwo(t: JString, whoseTurn: JString, playerOne: JString, playerTwo: JString)
    requires TurnAfter(t, whoseTurn, playerOne, playerTwo) == playerTwo
    ensures playerOne == playerTwo
  {
  }

  /** On a fresh update the turn stays null unless a player name is null too. */
  lemma FreshTurn(t: JString, playerOne: JString, playerTwo: JString)
    ensures TurnAfter(t, Null, playerOne, playerTwo) ==
      if playerOne == Null || playerTwo == Null then playerOne else Null
  {
  }

  // ------------------------------------------------------ response contents

  /** Every response populates only the fields of its own handler; all other
      fields keep the defaults of a fresh `Update`. */
  lemma ResponsePopulatesOnlyItsFields(s: FactoryState, a: ActionRecord, rep: Replies, env: Env)
    requires a.communicationType.Ref?
    ensures var r := Respond(s, a, rep, env);
      r.response.Ref? ==> SetsOnly(r.response.value, Populates(Route(a.communicationType.value)))
  {
    match Route(a.communicationType.value)
    case MoveRequest => MoveResponseFields(s, a, env);
    case _ =>
  }

  /** A move response populates only the fields `wrapUpResponse` writes. */
  lemma MoveResponseFields(s: FactoryState, a: ActionRecord, env: Env)
    ensures SetsOnly(MoveStep(s, a, env).response.value, MoveFields)
  {
  }

  // ---------------------------------------------------- request sequences

  /** One call of `getUpdate`: the action and what the collaborators answer. */
  datatype Request = Request(action: ActionRecord, replies: Replies)

  /** What a dispatcher has after a sequence of requests: its state and the
      response to each request in turn. */
  datatype Trace = Trace(state: FactoryState, responses: seq<Nullable<UpdateRecord>>)

  predicate Typed(reqs: seq<Request>) {
    forall i :: 0 <= i < |reqs| ==> reqs[i].action.communicationType.Ref?
  }

  /** The requests handled one after another by the same dispatcher. */
  function Run(s: FactoryState, reqs: seq<Request>, env: Env): (r: Trace)
    requires Typed(reqs)
    ensures |r.responses| == |reqs|
    decreases |reqs|
  {
    if |reqs| == 0 then Trace(s, [])
    else
      var step := Respond(s, reqs[0].action, reqs[0].replies, env);
      var rest := Run(step.state, reqs[1..], env);
      Trace(rest.state, [step.response] + rest.responses)
  }

  /** A response, if any, that does not claim the board was updated. */
  predicate Quiet(response: Nullable<UpdateRecord>) {
    response.Ref? ==> response.value.communicationType != Ref("updateBoard")
  }

  /** No handler answers with `"updateBoard"`, and the remembered response
      type only ever takes the two move outcomes. */
  lemma RespondNeverAnnouncesBoardUpdate(s: FactoryState, a: ActionRecord, rep: Replies, env: Env)
    requires a.communicationType.Ref?
    ensures var r := Respond(s, a, rep, env);
      && Quiet(r.response)
      && r.state.communicationType in { s.communicationType, Ref("endMatch"), Ref("errorInvalidMove") }
  {
  }

  /** However long a session runs, no response tells the client that the
      board was updated, and the dispatcher never remembers that type. */
  lemma {:induction false} RunNeverAnnouncesBoardUpdate(s: FactoryState, reqs: seq<Request>, env: Env)
    requires Typed(reqs)
    requires s.communicationType != Ref("updateBoard")
    ensures var r := Run(s, reqs, env);
      && r.state.communicationType != Ref("updateBoard")
      && forall i :: 0 <= i < |r.responses| ==> Quiet(r.responses[i])
    decreases |reqs|
  {
    if |reqs| > 0 {
      var step := Respond(s, reqs[0].action, reqs[0].replies, env);
      RespondNeverAnnouncesBoardUpdate(s, reqs[0].action, reqs[0].replies, env);
      assert Typed(reqs[1..]) by {
        forall i | 0 <= i < |reqs[1..]| ensures reqs[1..][i].action.communicationType.Ref? {
          assert reqs[1..][i] == reqs[i + 1];
        }
      }
      RunNeverAnnouncesBoardUpdate(step.state, reqs[1..], env);
    }
  }

  predicate NoMoves(reqs: seq<Request>)
    requires Typed(reqs)
  {
    forall i :: 0 <= i < |reqs| ==> Route(reqs[i].action.communicationType.value) != MoveRequest
  }

  /** Requests other than moves leave the board, `moveSucceeded` and the
      remembered response type exactly as they were. */
  lemma {:induction false} RunWithoutMovesKeepsState(s: FactoryState, reqs: seq<Request>, env: Env)
    requires Typed(reqs) && NoMoves(reqs)
    ensures Run(s, reqs, env).state == s
    decreases |reqs|
  {
    if |reqs| > 0 {
      assert Route(reqs[0].action.communicationType.value) != MoveRequest;
      assert NoMoves(reqs[1..]) by {
        forall i | 0 <= i < |reqs[1..]|
          ensures Route(reqs[1..][i].action.communicationType.value) != MoveRequest
        {
          assert reqs[1..][i] == reqs[i + 1];
        }
      }
      RunWithoutMovesKeepsState(s, reqs[1..], env);
    }
  }

  /** Whether `a` is a move request whose move the engine plays as legal on
      board `b`: the first lion check holds and `processMove` accepts. */
  predicate AcceptedOn(b: Board, a: ActionRecord, env: Env)
    requires a.communicationType.Ref?
  {
    && Route(a.communicationType.value) == MoveRequest
    && |a.desiredMoves| > 0
    && env.lionInCastle(b, a.desiredMoves[0]) == Returns(true)
    && env.processMove(a.desiredMoves, b).Returns?
    && env.processMove(a.desiredMoves, b).value.legal
  }

  /** No request of the session has its move accepted on the board it meets. */
  predicate NoneAccepted(s: FactoryState, reqs: seq<Request>, env: Env)
    requires Typed(reqs)
    decreases |reqs|
  {
    |reqs| == 0 ||
    (!AcceptedOn(s.board, reqs[0].action, env) &&
     NoneAccepted(Respond(s, reqs[0].action, reqs[0].replies, env).state, reqs[1..], env))
  }

  /** A request whose move is not accepted on the current board leaves the
      board alone, when the engine leaves rejected moves unplayed. */
  lemma StepKeepsBoardOn(s: FactoryState, req: Request, env: Env)
    requires req.action.communicationType.Ref? && RejectsWithoutChange(env)
    requires !AcceptedOn(s.board, req.action, env)
    ensures Respond(s, req.action, req.replies, env).state.board == s.board
  {
  }

  /** Under an engine that leaves rejected moves unplayed, the board changes
      only through accepted moves: a session in which no move is accepted on
      the board it meets ends on the board it started from. */
  lemma {:induction false} SessionKeepsBoard(s: FactoryState, reqs: seq<Request>, env: Env)
    requires Typed(reqs) && RejectsWithoutChange(env)
    requires NoneAccepted(s, reqs, env)
    ensures Run(s, reqs, env).state.board == s.board
    decreases |reqs|
  {
    if |reqs| > 0 {
      var step := Respond(s, reqs[0].action, reqs[0].replies, env);
      StepKeepsBoardOn(s, reqs[0], env);
      SessionKeepsBoard(step.state, reqs[1..], env);
    }
  }
}
