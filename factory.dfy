/** `UpdateFactory`: the dispatcher object. It keeps the shared board, the
    outcome of the last `processMove` and the last move-response type across
    requests; each method follows the statements of its source counterpart and
    is proved to agree with the functions of module Responses. */
module Factory {
  import opened Java
  import opened Messages
  import opened Collaborators
  import opened Responses

  class UpdateFactory {
    /** The rules engine and library calls the dispatcher relies on. */
    const env: Env
    /** The single shared `congoGame` board, held as its serialised form. */
    var congoGame: Board
    var communicationType: JString
    var moveSucceeded: bool

    function State(): FactoryState
      reads this
    {
      FactoryState(congoGame, moveSucceeded, communicationType)
    }

    /** A new dispatcher starts from the engine's initial board; the two
        other fields hold Java's defaults. */
    constructor (env: Env)
      ensures this.env == env
      ensures State() == FactoryState(env.initialBoard, false, Null)
    {
      this.env := env;
      congoGame := env.initialBoard;
      communicationType := Null;
      moveSucceeded := false;
    }

    /** Chooses the handler for the action's type. */
    method GetUpdate(action: Action, replies: Replies) returns (r: Update?)
      requires action.communicationType.Ref?
      modifies this, action
      ensures var step := Respond(old(State()), old(action.Fields()), replies, env);
        && State() == step.state && action.Fields() == step.action
        && (r == null <==> step.response.Null?)
        && (r != null ==> fresh(r) && r.Fields() == step.response.value)
    {
      match action.communicationType.value
      case "requestMoves" => r := BuildUpdateBoard(action);
      case "registerUser" => r := RegisterUser(action, replies.register);
      case "requestBeginNewMatch" => r := CreateNewMatch(action, replies.newGame, replies.newGameBoard);
      case "invitation" => r := BuildInvitation();
      case "invitationResponse" => r := null;
      case "quitMatch" => r := BuildEndMatch();
      case "unregisterUser" => r := null;
      case "attemptLogin" => r := LogIn(action, replies.login);
      case "attemptLogout" => r := BuildLogoutSuccess(action);
      case "searchUser" => r := BuildSearchResult(action, replies.search);
      case "sendInvitation" => r := BuildInvitationSentStatus(action, replies.invite);
      case _ => r := new Update();
    }

    /** Returns the message for a response type, setting the error code of an
        invalid move on the way. */
    method ConstructMessage(t: string, update: Update) returns (m: JString)
      modifies update`errorCode
      ensures update.errorCode == ErrorCodeAfter(t, old(update.errorCode))
      ensures m == MessageFor(t, env)
    {
      match t
      case "updateBoard" => m := Ref(BoardUpdatedText);
      case "errorInvalidMove" =>
        update.errorCode := 102;
        m := Ref(env.errorMessage(update.errorCode));
      case "endMatch" => m := Ref(GameOverText);
      case _ => m := Null;
    }

    /** Updates and returns `whoseTurn`; the second test stands outside the first. */
    method UpdateTurn(update: Update, action: Action) returns (turn: JString)
      modifies update`whoseTurn
      ensures update.whoseTurn ==
        TurnAfter(update.communicationType, old(update.whoseTurn), action.playerOneName, action.playerTwoName)
      ensures turn == update.whoseTurn
    {
      if update.communicationType == Ref("updateBoard") {
        if update.whoseTurn == action.playerOneName {
          update.whoseTurn := action.playerTwoName;
        }
      }
      if update.whoseTurn == action.playerTwoName {
        update.whoseTurn := action.playerOneName;
      }
      turn := update.whoseTurn;
    }

    /** Names the winner of an ended match from the engine's active player. */
    method FindWinner(t: string, update: Update, currLocation: int) returns (winner: Call<JString>)
      ensures winner == WinnerFor(t, update.updatedBoard, currLocation, env)
    {
      var name: JString := Null;
      if t == "endMatch" {
        var activePlayer := env.findActivePlayer(update.updatedBoard, currLocation);
        if activePlayer.Throws? {
          return Throws;
        }
        if activePlayer.value == 1 {
          name := Ref("playerOne");
        }
        if activePlayer.value == 2 {
          name := Ref("playerTwo");
        }
      }
      winner := Returns(name);
    }

    /** Fills the response fields from the action and the shared board; the
        winner is written to both the update and `action.playerName`, after
        `update.playerName` has taken the name the action arrived with.
        `raised` reports an exception, after which the caller discards `update`. */
    method WrapUpResponse(update: Update, action: Action, t: string) returns (raised: bool)
      modifies update`communicationType, update`communicationVersion, update`matchID,
        update`playerName, update`pieceID, update`updatedBoard, update`whoseTurn,
        update`errorCode, update`message, update`winnerName, action`playerName
      ensures var a := old(action.Fields());
        && update.communicationType == Ref(t) && update.communicationVersion == 0
        && update.matchID == a.matchID && update.pieceID == a.pieceID
        && update.playerName == a.playerName
        && update.updatedBoard == Ref(congoGame)
        && update.whoseTurn == TurnAfter(Ref(t), old(update.whoseTurn), a.playerOneName, a.playerTwoName)
        && update.errorCode == ErrorCodeAfter(t, old(update.errorCode))
        && update.message == MessageFor(t, env)
        && (raised <==> |a.desiredMoves| == 0 || WinnerFor(t, Ref(congoGame), a.desiredMoves[0], env) == Throws)
        && (!raised ==> update.winnerName == WinnerFor(t, Ref(congoGame), a.desiredMoves[0], env).value)
        && (raised ==> update.winnerName == old(update.winnerName))
        && action.Fields() == a.(playerName := if raised then a.playerName else update.winnerName)
    {
      update.communicationType := Ref(t);
      update.communicationVersion := 0;
      update.matchID := action.matchID;
      update.playerName := action.playerName;
      update.pieceID := action.pieceID;

      update.updatedBoard := Ref(congoGame);
      var turn := UpdateTurn(update, action);
      update.whoseTurn := turn;
      var message := ConstructMessage(t, update);
      update.message := message;

      if |action.desiredMoves| == 0 {
        return true;
      }
      var winner := FindWinner(t, update, action.desiredMoves[0]);
      if winner.Throws? {
        return true;
      }
      action.playerName := winner.value;
      update.winnerName := winner.value;
      raised := false;
    }

    /** The engine calls that open `buildUpdateBoard`: the first lion check,
        the move when that check holds, and the recheck when `moveSucceeded`
        (possibly left over from an earlier request) is set. Returns the
        final lion flag, or `Throws` when the indexing or an engine call throws. */
    method ConsultEngine(desiredMoves: seq<int>) returns (lionExist: Call<bool>)
      modifies this`congoGame, this`moveSucceeded
      ensures Checked(State(), lionExist) == CheckMove(old(State()), desiredMoves, env)
    {
      if |desiredMoves| == 0 {
        return Throws;
      }
      var check := env.lionInCastle(congoGame, desiredMoves[0]);
      if check.Throws? {
        return Throws;
      }
      var first := check.value;
      if first {
        var moved := env.processMove(desiredMoves, congoGame);
        if moved.Throws? {
          return Throws;
        }
        congoGame := moved.value.after;
        moveSucceeded := moved.value.legal;
      }
      lionExist := Returns(first);
      if moveSucceeded {
        lionExist := env.lionInCastle(congoGame, desiredMoves[0]);
      }
    }

    /** The response to a move request. Every exit taken on an exception goes
        through `MoveFaultUpdate`, as the source's catch block does. */
    method BuildUpdateBoard(action: Action) returns (r: Update)
      modifies this, action
      ensures var step := MoveStep(old(State()), old(action.Fields()), env);
        && State() == step.state && action.Fields() == step.action
        && fresh(r) && Ref(r.Fields()) == step.response
    {
      ghost var s, a := State(), action.Fields();
      var update := new Update();

      var check := ConsultEngine(action.desiredMoves);
      if check.Throws? {
        MoveStepOfFault(s, a, env);
        r := MoveFaultUpdate();
      } else {
        var lionExist := check.value;
        MoveStepOfFlag(s, a, env, lionExist);
        if lionExist {
          communicationType := Ref("updateBoard");
        }
        if !lionExist {
          communicationType := Ref("endMatch");
        } else {
          communicationType := Ref("errorInvalidMove");
        }
        var raised := WrapUpBlank(update, action, communicationType.value);
        if raised {
          r := MoveFaultUpdate();
        } else {
          r := update;
        }
      }
    }

    /** `wrapUpResponse` applied to an `Update` still at its defaults, stated
        as the record, the action and the exception flag that `WrapUp` gives. */
    method WrapUpBlank(update: Update, action: Action, t: string) returns (raised: bool)
      requires update.Fields() == Blank
      modifies update`communicationType, update`communicationVersion, update`matchID,
        update`playerName, update`pieceID, update`updatedBoard, update`whoseTurn,
        update`errorCode, update`message, update`winnerName, action`playerName
      ensures var w := WrapUp(Blank, old(action.Fields()), t, congoGame, env);
        && raised == w.raised
        && action.Fields() == w.action
        && (!raised ==> update.Fields() == w.update)
    {
      raised := WrapUpResponse(update, action, t);
      if !raised {
        WrapUpOfBlank(old(action.Fields()), t, congoGame, env);
      }
    }

    /** The catch block of `buildUpdateBoard`. */
    method MoveFaultUpdate() returns (r: Update)
      ensures fresh(r) && r.Fields() == MoveFault
    {
      r := new Update();
      r.communicationType := Ref("ErrorInvalidMove");
      r.message := Ref("GameBoard not found! Unable to make move");
    }

    method RegisterUser(action: Action, register: Outcome) returns (r: Update?)
      ensures r == null <==> RegistrationResponse(action.Fields(), register).Null?
      ensures r != null ==> fresh(r) && Ref(r.Fields()) == RegistrationResponse(action.Fields(), register)
    {
      if register.Fail? {
        return null;
      }
      r := new Update();
      r.communicationType := Ref("registrationSuccess");
      r.userEmail := action.userEmail;
      r.userName := action.userName;
      r.message := Ref(RegisteredText);
    }

    method LogIn(action: Action, login: Call<JString>) returns (r: Update?)
      ensures r == null <==> LoginResponse(action.Fields(), login).Null?
      ensures r != null ==> fresh(r) && Ref(r.Fields()) == LoginResponse(action.Fields(), login)
    {
      var update := new Update();
      if login.Throws? {
        return null;
      }
      update.userName := login.value;
      update.userEmail := action.userEmail;
      update.communicationType := Ref("loginSuccess");
      r := update;
    }

    method BuildLogoutSuccess(action: Action) returns (r: Update)
      ensures fresh(r) && r.Fields() == LogoutResponse()
    {
      r := new Update();
      r.communicationType := Ref("logoutSuccess");
      r.message := Ref(LoggedOutText);
    }

    method CreateNewMatch(action: Action, newGame: Call<int>, board: Call<Nullable<Board>>) returns (r: Update?)
      ensures r == null <==> NewMatchResponse(action.Fields(), newGame, board, env).Null?
      ensures r != null ==> fresh(r) && Ref(r.Fields()) == NewMatchResponse(action.Fields(), newGame, board, env)
    {
      var update := new Update();
      update.communicationType := Ref("beginNewMatch");
      if newGame.Throws? {
        return null;
      }
      update.matchID := Ref(env.decimal(newGame.value));
      if board.Throws? {
        return null;
      }
      update.initialBoard := board.value;
      update.whoseTurn := action.playerOneName;
      r := update;
    }

    method BuildInvitation() returns (r: Update)
      ensures fresh(r) && r.Fields() == InvitationResponse()
    {
      r := new Update();
      r.communicationType := Ref("invitation");
      r.invitationFrom := Ref("player1");
      r.invitationTo := Ref("player2");
      r.invitationTime := Ref("dummy_time");
    }

    method BuildEndMatch() returns (r: Update)
      ensures fresh(r) && r.Fields() == EndMatchResponse()
    {
      r := new Update();
      r.communicationType := Ref("endMatch");
      r.matchID := Ref("dummy_match_ID");
      r.endCondition := Ref("quit");
      r.winnerName := Ref("player1");
      r.loserName := Ref("player2");
      r.matchEndTime := Ref("dummy_end_time");
    }

    method BuildSearchResult(action: Action, search: Call<string>) returns (r: Update)
      ensures fresh(r) && r.Fields() == SearchResponse(action.Fields(), search)
    {
      r := new Update();
      r.communicationType := Ref("searchResult");
      r.userName := action.userName;
      var databaseSearchResult := "";
      if search.Returns? {
        databaseSearchResult := search.value;
      }
      if databaseSearchResult == UserNotFound {
        r.userFound := false;
      } else {
        r.userFound := true;
      }
    }

    method BuildInvitationSentStatus(action: Action, invite: Outcome) returns (r: Update)
      ensures fresh(r) && r.Fields() == InvitationSentResponse(invite)
    {
      r := new Update();
      r.communicationType := Ref("invitationSentStatus");
      if invite.Fail? {
        r.invitationSent := false;
        r.statusMessage := Ref(invite.text);
        return;
      }
      r.invitationSent := true;
    }
  }
}
