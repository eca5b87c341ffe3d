/** The wire records exchanged with the client: the inbound `Action` and the
    outbound `Update`. Both are Java objects with public fields; the dispatcher
    writes into both, so both are classes here, each with a value view. */
module Messages {
  import opened Java

  /** The board as the engine serialises it for the database and the client. */
  type Board = string

  /** The value of every field of an `Update`. */
  datatype UpdateRecord = UpdateRecord(
    communicationType: JString,
    communicationVersion: int,
    matchID: JString,
    playerName: JString,
    pieceID: JString,
    updatedBoard: Nullable<Board>,
    whoseTurn: JString,
    message: JString,
    winnerName: JString,
    loserName: JString,
    errorCode: int,
    userFound: bool,
    invitationSent: bool,
    statusMessage: JString,
    userEmail: JString,
    userName: JString,
    initialBoard: Nullable<Board>,
    invitationFrom: JString,
    invitationTo: JString,
    invitationTime: JString,
    endCondition: JString,
    matchEndTime: JString)

  /** A freshly allocated `Update`: every field holds Java's default value. */
  const Blank := UpdateRecord(Null, 0, Null, Null, Null, Null, Null, Null, Null, Null,
                              0, false, false, Null, Null, Null, Null, Null, Null, Null, Null, Null)

  /** The names of the fields of an `Update`. */
  datatype Field =
    | CommunicationType | CommunicationVersion | MatchID | PlayerName | PieceID
    | UpdatedBoard | WhoseTurn | Message | WinnerName | LoserName | ErrorCode
    | UserFound | InvitationSent | StatusMessage | UserEmail | UserName
    | InitialBoard | InvitationFrom | InvitationTo | InvitationTime
    | EndCondition | MatchEndTime

  /** Whether field `f` of `u` still holds its default value. */
  predicate IsDefault(u: UpdateRecord, f: Field) {
    match f
    case CommunicationType => u.communicationType == Null
    case CommunicationVersion => u.communicationVersion == 0
    case MatchID => u.matchID == Null
    case PlayerName => u.playerName == Null
    case PieceID => u.pieceID == Null
    case UpdatedBoard => u.updatedBoard == Null
    case WhoseTurn => u.whoseTurn == Null
    case Message => u.message == Null
    case WinnerName => u.winnerName == Null
    case LoserName => u.loserName == Null
    case ErrorCode => u.errorCode == 0
    case UserFound => !u.userFound
    case InvitationSent => !u.invitationSent
    case StatusMessage => u.statusMessage == Null
    case UserEmail => u.userEmail == Null
    case UserName => u.userName == Null
    case InitialBoard => u.initialBoard == Null
    case InvitationFrom => u.invitationFrom == Null
    case InvitationTo => u.invitationTo == Null
    case InvitationTime => u.invitationTime == Null
    case EndCondition => u.endCondition == Null
    case MatchEndTime => u.matchEndTime == Null
  }

  /** Every field outside `touched` is left at its default: the response does
      not populate fields that do not belong to its operation. */
  predicate SetsOnly(u: UpdateRecord, touched: set<Field>) {
    forall f: Field :: f !in touched ==> IsDefault(u, f)
  }

  /** The outbound response object. */
  class Update {
    var communicationType: JString
    var communicationVersion: int
    var matchID: JString
    var playerName: JString
    var pieceID: JString
    var updatedBoard: Nullable<Board>
    var whoseTurn: JString
    var message: JString
    var winnerName: JString
    var loserName: JString
    var errorCode: int
    var userFound: bool
    var invitationSent: bool
    var statusMessage: JString
    var userEmail: JString
    var userName: JString
    var initialBoard: Nullable<Board>
    var invitationFrom: JString
    var invitationTo: JString
    var invitationTime: JString
    var endCondition: JString
    var matchEndTime: JString

    function Fields(): UpdateRecord
      reads this
    {
      UpdateRecord(communicationType, communicationVersion, matchID, playerName, pieceID,
                   updatedBoard, whoseTurn, message, winnerName, loserName, errorCode,
                   userFound, invitationSent, statusMessage, userEmail, userName,
                   initialBoard, invitationFrom, invitationTo, invitationTime,
                   endCondition, matchEndTime)
    }

    /** `new Update()`: all fields at Java's defaults. */
    constructor ()
      ensures Fields() == Blank
    {
      communicationType, communicationVersion, matchID, playerName, pieceID := Null, 0, Null, Null, Null;
      updatedBoard, whoseTurn, message, winnerName, loserName := Null, Null, Null, Null, Null;
      errorCode, userFound, invitationSent, statusMessage := 0, false, false, Null;
      userEmail, userName, initialBoard := Null, Null, Null;
      invitationFrom, invitationTo, invitationTime, endCondition, matchEndTime := Null, Null, Null, Null, Null;
    }
  }

  /** The value of every field of an `Action` that the dispatcher reads or writes. */
  datatype ActionRecord = ActionRecord(
    communicationType: JString,
    matchID: JString,
    playerName: JString,
    playerOneName: JString,
    playerTwoName: JString,
    pieceID: JString,
    desiredMoves: seq<int>,
    userName: JString,
    userEmail: JString)

  /** The inbound request object. */
  class Action {
    var communicationType: JString
    var matchID: JString
    var playerName: JString
    var playerOneName: JString
    var playerTwoName: JString
    var pieceID: JString
    var desiredMoves: seq<int>
    var userName: JString
    var userEmail: JString

    function Fields(): ActionRecord
      reads this
    {
      ActionRecord(communicationType, matchID, playerName, playerOneName, playerTwoName,
                   pieceID, desiredMoves, userName, userEmail)
    }

    constructor (a: ActionRecord)
      ensures Fields() == a
    {
      communicationType, matchID, playerName := a.communicationType, a.matchID, a.playerName;
      playerOneName, playerTwoName, pieceID := a.playerOneName, a.playerTwoName, a.pieceID;
      desiredMoves, userName, userEmail := a.desiredMoves, a.userName, a.userEmail;
    }
  }
}
