/** The messages the client emits on its socket. The connection itself is not modelled: an
    emitted message is appended to an outbox that stands for `socket.emit`. */
module Intents {
  import Canvas

  /** One of the word options offered to the drawer. */
  datatype WordChoice = WordChoice(text: string, difficulty: string)

  datatype Intent =
    | CreateRoom(hostId: string, nickname: string, avatar: int, isVip: bool)
    | JoinRoom(roomCode: string, userId: string, nickname: string, avatar: int, isVip: bool)
    | LeaveRoom(roomCode: string, userId: string)
    | StartGame(roomCode: string, maxScore: int)
    | DrawStroke(roomCode: string, stroke: Canvas.Stroke)
    | ClearCanvas(roomCode: string)
    | SendMessage(roomCode: string, message: string)
    | ChooseWord(roomCode: string, wordObj: WordChoice)
    | GiveHint(roomCode: string)
    | BuySabotage(roomCode: string, itemId: string)
    | UseSabotage(roomCode: string, itemId: string, targetId: string)
}
