/** What the dispatcher asks of code outside it. The rules engine (the shared
    `GameBoard` and `Game`) and two library calls are deterministic functions
    of their arguments; the persistence layer and new-game creation keep state
    of their own, so their answers are supplied per request. */
module Collaborators {
  import opened Java
  import opened Messages

  /** The result of `Game.processMove`: whether the move was legal, and the
      board it leaves behind. */
  datatype Move = Move(legal: bool, after: Board)

  datatype Env = Env(
    /** The board `GameBoard.initialize` sets up. */
    initialBoard: Board,
    /** `GameBoard.lionInCastle(board, location)`. */
    lionInCastle: (Board, int) -> Call<bool>,
    /** `Game.processMove(desiredMoves, board)`. */
    processMove: (seq<int>, Board) -> Call<Move>,
    /** `GameBoard.findActivePlayer(board, location)`. */
    findActivePlayer: (Nullable<Board>, int) -> Call<int>,
    /** `ServerError.getErrorMessage(code)`. */
    errorMessage: int -> string,
    /** `Integer.toString(n)`. */
    decimal: int -> string)

  /** The engine keeps its side of the contract: a move it rejects leaves the
      board as it was. */
  ghost predicate RejectsWithoutChange(env: Env) {
    forall moves: seq<int>, b: Board ::
      env.processMove(moves, b).Returns? && !env.processMove(moves, b).value.legal ==>
        env.processMove(moves, b).value.after == b
  }

  /** The answers of the stateful collaborators to one request. */
  datatype Replies = Replies(
    /** `DatabaseHandler.registerUser(action)`. */
    register: Outcome,
    /** `DatabaseHandler.attemptLogin(action)`: the user name it returns. */
    login: Call<JString>,
    /** `DatabaseHandler.searchUser(action)`. */
    search: Call<string>,
    /** `DatabaseHandler.sendGameInvitation(action)`. */
    invite: Outcome,
    /** `Game.createNewGame(action)`: the new match's number. */
    newGame: Call<int>,
    /** `Game.getBoard()` on the new game. */
    newGameBoard: Call<Nullable<Board>>)
}
