/** The dispatcher's behaviour as functions of values: which handler a request
    reaches, the response each handler assembles, and how a move request
    changes the dispatcher's own state. The class in module Factory follows
    the source statement by statement and is proved to agree with these. */
module Responses {
  import opened Java
  import opened Messages
  import opened Collaborators

  // ---------------------------------------------------------------- dispatch

  /** The handlers `getUpdate` chooses between. */
  datatype Handler =
    | MoveRequest | Registration | NewMatch | Invitation | QuitMatch
    | Login | Logout | Search | SendInvitation | NoResponse | Unsupported

  /** The eleven request types `getUpdate` recognises. */
  const Catalogue: set<string> := {
    "requestMoves", "registerUser", "requestBeginNewMatch", "invitation",
    "invitationResponse", "quitMatch", "unregisterUser", "attemptLogin",
    "attemptLogout", "searchUser", "sendInvitation" }

  /** The handler for a request type: recognised types reach their own
      handler, two of them are answered with no response at all, and
      everything else falls to the default branch. */
  function Route(t: string): (h: Handler)
    ensures h == Unsupported <==> t !in Catalogue
    ensures h == NoResponse <==> t == "invitationResponse" || t == "unregisterUser"
    ensures h == MoveRequest <==> t == "requestMoves"
    ensures h == Registration <==> t == "registerUser"
    ensures h == NewMatch <==> t == "requestBeginNewMatch"
    ensures h == Invitation <==> t == "invitation"
    ensures h == QuitMatch <==> t == "quitMatch"
    ensures h == Login <==> t == "attemptLogin"
    ensures h == Logout <==> t == "attemptLogout"
    ensures h == Search <==> t == "searchUser"
    ensures h == SendInvitation <==> t == "sendInvitation"
  {
    match t
    case "requestMoves" => MoveRequest
    case "registerUser" => Registration
    case "requestBeginNewMatch" => NewMatch
    case "invitation" => Invitation
    case "invitationResponse" => NoResponse
    case "quitMatch" => QuitMatch
    case "unregisterUser" => NoResponse
    case "attemptLogin" => Login
    case "attemptLogout" => Logout
    case "searchUser" => Search
    case "sendInvitation" => SendInvitation
    case _ => Unsupported
  }

  // ------------------------------------------------------ message catalogue

  const BoardUpdatedText := "The player's move was valid and the board has been updated"
  const GameOverText := "Lion is captured, Game is Over!"
  const InvalidMoveCode := 102

  /** The response types `constructMessage` has a message for. */
  const MessageCatalogue: set<string> := { "updateBoard", "errorInvalidMove", "endMatch" }

  /** The message text for a response type; null outside the catalogue. */
  function MessageFor(t: string, env: Env): (m: JString)
    ensures m.Ref? <==> t in MessageCatalogue
    ensures t == "updateBoard" ==> m == Ref(BoardUpdatedText)
    ensures t == "endMatch" ==> m == Ref(GameOverText)
    ensures t == "errorInvalidMove" ==> m == Ref(env.errorMessage(InvalidMoveCode))
  {
    match t
    case "updateBoard" => Ref(BoardUpdatedText)
    case "errorInvalidMove" => Ref(env.errorMessage(InvalidMoveCode))
    case "endMatch" => Ref(GameOverText)
    case _ => Null
  }

  /** The error code after `constructMessage`: only an invalid move sets it. */
  function ErrorCodeAfter(t: string, code: int): (c: int)
    ensures c != code ==> t == "errorInvalidMove"
    ensures t == "errorInvalidMove" ==> c == InvalidMoveCode
  {
    if t == "errorInvalidMove" then InvalidMoveCode else code
  }

  // ------------------------------------------------------------ turn update

  /** `whoseTurn` after `updateTurn`. The second test is not nested under the
      first, so a flip to player two is at once undone: whatever the response
      type, a turn held by either player ends with player one, and any other
      value is left alone. */
  function TurnAfter(t: JString, whoseTurn: JString, playerOne: JString, playerTwo: JString): (turn: JString)
    ensures turn == if whoseTurn == playerOne || whoseTurn == playerTwo then playerOne else whoseTurn
  {
    var flipped := if t == Ref("updateBoard") && whoseTurn == playerOne then playerTwo else whoseTurn;
    if flipped == playerTwo then playerOne else flipped
  }

  // -------------------------------------------------------- winner selection

  /** The winner `findWinner` names: the engine is asked only for an
      `"endMatch"` response, and only active player 1 or 2 gives a name. */
  function WinnerFor(t: string, board: Nullable<Board>, location: int, env: Env): (w: Call<JString>)
    ensures w == Throws <==> t == "endMatch" && env.findActivePlayer(board, location) == Throws
    ensures w == Returns(Ref("playerOne")) <==> t == "endMatch" && env.findActivePlayer(board, location) == Returns(1)
    ensures w == Returns(Ref("playerTwo")) <==> t == "endMatch" && env.findActivePlayer(board, location) == Returns(2)
    ensures w == Returns(Null) <==>
      t != "endMatch" ||
      (env.findActivePlayer(board, location).Returns? && env.findActivePlayer(board, location).value != 1 && env.findActivePlayer(board, location).value != 2)
  {
    if t != "endMatch" then Returns(Null)
    else match env.findActivePlayer(board, location)
      case Throws => Throws
      case Returns(i) => Returns(if i == 1 then Ref("playerOne") else if i == 2 then Ref("playerTwo") else Null)
  }

  // ------------------------------------------------------ response wrap-up

  /** The update after the first part of `wrapUpResponse`, which copies the
      identity fields from the action and fills board, turn and message. */
  function Filled(u: UpdateRecord, a: ActionRecord, t: string, board: Board, env: Env): UpdateRecord {
    var u1 := u.(communicationType := Ref(t), communicationVersion := 0, matchID := a.matchID,
                 playerName := a.playerName, pieceID := a.pieceID, updatedBoard := Ref(board));
    var u2 := u1.(whoseTurn := TurnAfter(u1.communicationType, u1.whoseTurn, a.playerOneName, a.playerTwoName));
    u2.(errorCode := ErrorCodeAfter(t, u2.errorCode), message := MessageFor(t, env))
  }

  /** The update and the action after `wrapUpResponse`, and whether it threw. */
  datatype Wrapped = Wrapped(update: UpdateRecord, action: ActionRecord, raised: bool)

  /** `wrapUpResponse(update, action, t)` with the shared board at `board`.
      The identity fields are copied from the action before the winner is
      written over `action.playerName`; the indexing of `desiredMoves` and the
      engine's `findActivePlayer` are the two ways it can throw. */
  function WrapUp(u: UpdateRecord, a: ActionRecord, t: string, board: Board, env: Env): (w: Wrapped)
    ensures w.update.communicationType == Ref(t) && w.update.communicationVersion == 0
    ensures w.update.matchID == a.matchID && w.update.pieceID == a.pieceID
    ensures w.update.playerName == a.playerName
    ensures w.update.updatedBoard == Ref(board)
    ensures w.update.message == MessageFor(t, env)
    ensures w.update.errorCode == ErrorCodeAfter(t, u.errorCode)
    ensures w.raised <==>
      |a.desiredMoves| == 0 || WinnerFor(t, Ref(board), a.desiredMoves[0], env) == Throws
    ensures !w.raised ==> w.update.winnerName == w.action.playerName
    ensures w.action == a.(playerName := w.action.playerName)
    ensures w.raised ==> w.action == a
  {
    var filled := Filled(u, a, t, board, env);
    if |a.desiredMoves| == 0 then Wrapped(filled, a, true)
    else match WinnerFor(t, filled.updatedBoard, a.desiredMoves[0], env)
      case Throws => Wrapped(filled, a, true)
      case Returns(winner) => Wrapped(filled.(winnerName := winner), a.(playerName := winner), false)
  }

  /** Wrapping up a fresh `Update`: the fields the source fills, and the
      defaults everywhere else. */
  lemma WrapUpOfBlank(a: ActionRecord, t: string, board: Board, env: Env)
    requires !WrapUp(Blank, a, t, board, env).raised
    ensures WrapUp(Blank, a, t, board, env).update ==
      UpdateRecord(Ref(t), 0, a.matchID, a.playerName, a.pieceID, Ref(board),
                   TurnAfter(Ref(t), Null, a.playerOneName, a.playerTwoName), MessageFor(t, env),
                   WinnerFor(t, Ref(board), a.desiredMoves[0], env).value, Null, ErrorCodeAfter(t, 0),
                   false, false, Null, Null, Null, Null, Null, Null, Null, Null, Null)
  {
  }

  // ----------------------------------------------------------- move request

  /** The fields of `UpdateFactory` that outlive a request: the shared board,
      the outcome of the last `processMove`, and the last response type. */
  datatype FactoryState = FactoryState(board: Board, moveSucceeded: bool, communicationType: JString)

  /** One request's effect: the dispatcher's new state, the response (null
      when the handler returns null) and the action as the handler left it. */
  datatype Step = Step(state: FactoryState, response: Nullable<UpdateRecord>, action: ActionRecord)

  /** The response built when anything inside `buildUpdateBoard` throws. Its
      type is spelled with a capital E, unlike `"errorInvalidMove"`. */
  const MoveFault := Blank.(communicationType := Ref("ErrorInvalidMove"),
                            message := Ref("GameBoard not found! Unable to make move"))

  /** The response type chosen from the final lion flag. The `else` at the
      end binds to the second test, so `"updateBoard"` is always overwritten. */
  function MoveResponseType(lionExist: bool): (t: string)
    ensures t != "updateBoard"
    ensures t == "errorInvalidMove" <==> lionExist
    ensures t == "endMatch" <==> !lionExist
  {
    if !lionExist then "endMatch" else "errorInvalidMove"
  }

  /** The fields a move response may populate. */
  const MoveFields: set<Field> := {
    CommunicationType, CommunicationVersion, MatchID, PlayerName, PieceID,
    UpdatedBoard, WhoseTurn, Message, ErrorCode, WinnerName }

  /** What the engine calls of `buildUpdateBoard` leave behind: the
      dispatcher's state and either the final lion flag or an exception. */
  datatype Checked = Checked(state: FactoryState, lionExist: Call<bool>)

  /** The engine calls of `buildUpdateBoard`, up to the choice of response
      type. `processMove` runs only when the first lion check holds; otherwise
      `moveSucceeded` keeps the value of an earlier request and decides
      whether the lion is checked again. Indexing an empty `moves` throws. */
  function CheckMove(s: FactoryState, moves: seq<int>, env: Env): (c: Checked)
    ensures c.state.communicationType == s.communicationType
    ensures c.state.board != s.board || c.state.moveSucceeded != s.moveSucceeded ==>
      |moves| > 0 && env.lionInCastle(s.board, moves[0]) == Returns(true) &&
      env.processMove(moves, s.board).Returns? &&
      c.state.board == env.processMove(moves, s.board).value.after &&
      c.state.moveSucceeded == env.processMove(moves, s.board).value.legal
  {
    if |moves| == 0 then Checked(s, Throws)
    else
      var location := moves[0];
      match env.lionInCastle(s.board, location)
      case Throws => Checked(s, Throws)
      case Returns(first) =>
        var moved := if first then env.processMove(moves, s.board)
                     else Returns(Move(s.moveSucceeded, s.board));
        match moved
        case Throws => Checked(s, Throws)
        case Returns(m) =>
          var s1 := s.(board := m.after, moveSucceeded := m.legal);
          var check := if s1.moveSucceeded then env.lionInCastle(s1.board, location) else Returns(first);
          Checked(s1, check)
  }

  /** `buildUpdateBoard(action)`: the engine calls, the response type chosen
      from the final lion flag, and the wrap-up; any exception on the way
      gives `MoveFault`. */
  function MoveStep(s: FactoryState, a: ActionRecord, env: Env): (r: Step)
    ensures r.response.Ref?
    ensures r.response.value.communicationType in
      { Ref("endMatch"), Ref("errorInvalidMove"), Ref("ErrorInvalidMove") }
    ensures r.state.communicationType in { s.communicationType, Ref("endMatch"), Ref("errorInvalidMove") }
    ensures r.action == a.(playerName := r.action.playerName)
    ensures |a.desiredMoves| == 0 ==> r == Step(s, Ref(MoveFault), a)
  {
    var c := CheckMove(s, a.desiredMoves, env);
    match c.lionExist
    case Throws => Step(c.state, Ref(MoveFault), a)
    case Returns(lionExist) =>
      var t := MoveResponseType(lionExist);
      var s2 := c.state.(communicationType := Ref(t));
      var w := WrapUp(Blank, a, t, s2.board, env);
      if w.raised then Step(s2, Ref(MoveFault), a)
      else Step(s2, Ref(w.update), w.action)
  }

  /** `MoveStep` when an engine call or the indexing throws. */
  lemma MoveStepOfFault(s: FactoryState, a: ActionRecord, env: Env)
    requires CheckMove(s, a.desiredMoves, env).lionExist == Throws
    ensures MoveStep(s, a, env) == Step(CheckMove(s, a.desiredMoves, env).state, Ref(MoveFault), a)
  {
  }

  /** `MoveStep` when the engine calls complete with lion flag `lionExist`. */
  lemma MoveStepOfFlag(s: FactoryState, a: ActionRecord, env: Env, lionExist: bool)
    requires CheckMove(s, a.desiredMoves, env).lionExist == Returns(lionExist)
    ensures var t := MoveResponseType(lionExist);
      var s2 := CheckMove(s, a.desiredMoves, env).state.(communicationType := Ref(t));
      var w := WrapUp(Blank, a, t, s2.board, env);
      MoveStep(s, a, env) ==
        if w.raised then Step(s2, Ref(MoveFault), a) else Step(s2, Ref(w.update), w.action)
  {
  }

  // --------------------------------------------------------------- builders

  const RegisteredText := "User account has been successfully created."
  const LoggedOutText := "User has successfully logged out."
  const UserNotFound := "user not found"

  /** `registerUser`: null when the database throws. */
  function RegistrationResponse(a: ActionRecord, register: Outcome): (r: Nullable<UpdateRecord>)
    ensures r.Null? <==> register.Fail?
    ensures r.Ref? ==>
      r.value.communicationType == Ref("registrationSuccess") &&
      r.value.userEmail == a.userEmail && r.value.userName == a.userName &&
      r.value.message == Ref(RegisteredText)
  {
    match register
    case Fail(_) => Null
    case Pass =>
      Ref(Blank.(communicationType := Ref("registrationSuccess"), userEmail := a.userEmail,
                 userName := a.userName, message := Ref(RegisteredText)))
  }

  /** `logIn`: the user name is the one the database returns; null when it throws. */
  function LoginResponse(a: ActionRecord, login: Call<JString>): (r: Nullable<UpdateRecord>)
    ensures r.Null? <==> login.Throws?
    ensures r.Ref? ==>
      r.value.communicationType == Ref("loginSuccess") &&
      r.value.userName == login.value && r.value.userEmail == a.userEmail
  {
    match login
    case Throws => Null
    case Returns(name) =>
      Ref(Blank.(userName := name, userEmail := a.userEmail, communicationType := Ref("loginSuccess")))
  }

  /** `buildLogoutSuccess`: a fixed response. */
  function LogoutResponse(): (r: UpdateRecord)
    ensures r.communicationType == Ref("logoutSuccess") && r.message == Ref(LoggedOutText)
  {
    Blank.(communicationType := Ref("logoutSuccess"), message := Ref(LoggedOutText))
  }

  /** `createNewMatch`: null when creating the game or reading its board throws;
      player one moves first. */
  function NewMatchResponse(a: ActionRecord, newGame: Call<int>, board: Call<Nullable<Board>>, env: Env)
    : (r: Nullable<UpdateRecord>)
    ensures r.Null? <==> newGame.Throws? || board.Throws?
    ensures r.Ref? ==>
      r.value.communicationType == Ref("beginNewMatch") &&
      r.value.matchID == Ref(env.decimal(newGame.value)) &&
      r.value.initialBoard == board.value && r.value.whoseTurn == a.playerOneName
  {
    match newGame
    case Throws => Null
    case Returns(id) =>
      match board
      case Throws => Null
      case Returns(b) =>
        Ref(Blank.(communicationType := Ref("beginNewMatch"), matchID := Ref(env.decimal(id)),
                   initialBoard := b, whoseTurn := a.playerOneName))
  }

  /** `buildInvitation`: fixed placeholder values. */
  function InvitationResponse(): (r: UpdateRecord)
    ensures r.communicationType == Ref("invitation")
    ensures r.invitationFrom == Ref("player1") && r.invitationTo == Ref("player2")
    ensures r.invitationTime == Ref("dummy_time")
  {
    Blank.(communicationType := Ref("invitation"), invitationFrom := Ref("player1"),
           invitationTo := Ref("player2"), invitationTime := Ref("dummy_time"))
  }

  /** `buildEndMatch`: fixed placeholder values for a quit match. */
  function EndMatchResponse(): (r: UpdateRecord)
    ensures r.communicationType == Ref("endMatch") && r.endCondition == Ref("quit")
    ensures r.matchID == Ref("dummy_match_ID") && r.matchEndTime == Ref("dummy_end_time")
    ensures r.winnerName == Ref("player1") && r.loserName == Ref("player2")
  {
    Blank.(communicationType := Ref("endMatch"), matchID := Ref("dummy_match_ID"),
           endCondition := Ref("quit"), winnerName := Ref("player1"),
           loserName := Ref("player2"), matchEndTime := Ref("dummy_end_time"))
  }

  /** `buildSearchResult`: a search that throws leaves the result `""`, so the
      user counts as found unless the database answers exactly "user not found". */
  function SearchResponse(a: ActionRecord, search: Call<string>): (r: UpdateRecord)
    ensures r.communicationType == Ref("searchResult") && r.userName == a.userName
    ensures !r.userFound <==> search == Returns(UserNotFound)
  {
    var result := match search case Returns(s) => s case Throws => "";
    Blank.(communicationType := Ref("searchResult"), userName := a.userName,
           userFound := result != UserNotFound)
  }

  /** `buildInvitationSentStatus`: a failure is reported with the exception's text. */
  function InvitationSentResponse(invite: Outcome): (r: UpdateRecord)
    ensures r.communicationType == Ref("invitationSentStatus")
    ensures r.invitationSent <==> invite.Pass?
    ensures r.statusMessage == if invite.Fail? then Ref(invite.text) else Null
  {
    match invite
    case Pass => Blank.(communicationType := Ref("invitationSentStatus"), invitationSent := true)
    case Fail(text) =>
      Blank.(communicationType := Ref("invitationSentStatus"), invitationSent := false,
             statusMessage := Ref(text))
  }

  // -------------------------------------------------------------- getUpdate

  /** The fields each handler's response may populate. */
  function Populates(h: Handler): set<Field> {
    match h
    case MoveRequest => MoveFields
    case Registration => {CommunicationType, UserEmail, UserName, Message}
    case NewMatch => {CommunicationType, MatchID, InitialBoard, WhoseTurn}
    case Invitation => {CommunicationType, InvitationFrom, InvitationTo, InvitationTime}
    case QuitMatch => {CommunicationType, MatchID, EndCondition, WinnerName, LoserName, MatchEndTime}
    case Login => {CommunicationType, UserName, UserEmail}
    case Logout => {CommunicationType, Message}
    case Search => {CommunicationType, UserName, UserFound}
    case SendInvitation => {CommunicationType, InvitationSent, StatusMessage}
    case NoResponse => {}
    case Unsupported => {}
  }

  /** `getUpdate(action)`: each recognised type is answered by its own
      builder, two types get no response, and an unrecognised type gets a
      default `Update`. Only a move request touches the dispatcher's state or
      the action. */
  function Respond(s: FactoryState, a: ActionRecord, rep: Replies, env: Env): (r: Step)
    requires a.communicationType.Ref?
    ensures var h := Route(a.communicationType.value);
      && (h != MoveRequest ==> r.state == s && r.action == a)
      && (r.response.Null? <==>
           || h == NoResponse
           || (h == Registration && rep.register.Fail?)
           || (h == Login && rep.login.Throws?)
           || (h == NewMatch && (rep.newGame.Throws? || rep.newGameBoard.Throws?)))
      && (h == Unsupported ==> r.response == Ref(Blank))
      && (h == MoveRequest ==> r == MoveStep(s, a, env))
      && (h == Registration ==> r.response == RegistrationResponse(a, rep.register))
      && (h == NewMatch ==> r.response == NewMatchResponse(a, rep.newGame, rep.newGameBoard, env))
      && (h == Invitation ==> r.response == Ref(InvitationResponse()))
      && (h == QuitMatch ==> r.response == Ref(EndMatchResponse()))
      && (h == Login ==> r.response == LoginResponse(a, rep.login))
      && (h == Logout ==> r.response == Ref(LogoutResponse()))
      && (h == Search ==> r.response == Ref(SearchResponse(a, rep.search)))
      && (h == SendInvitation ==> r.response == Ref(InvitationSentResponse(rep.invite)))
  {
    match Route(a.communicationType.value)
    case MoveRequest => MoveStep(s, a, env)
    case Registration => Step(s, RegistrationResponse(a, rep.register), a)
    case NewMatch => Step(s, NewMatchResponse(a, rep.newGame, rep.newGameBoard, env), a)
    case Invitation => Step(s, Ref(InvitationResponse()), a)
    case NoResponse => Step(s, Null, a)
    case QuitMatch => Step(s, Ref(EndMatchResponse()), a)
    case Login => Step(s, LoginResponse(a, rep.login), a)
    case Logout => Step(s, Ref(LogoutResponse()), a)
    case Search => Step(s, Ref(SearchResponse(a, rep.search)), a)
    case SendInvitation => Step(s, Ref(InvitationSentResponse(rep.invite)), a)
    case Unsupported => Step(s, Ref(Blank), a)
  }
}
