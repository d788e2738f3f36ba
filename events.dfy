/**
 * One line of a server-pushed stream, after `json.loads`. The server sends
 * blank keep-alive lines; a line that is not valid JSON is `Malformed`.
 */
module Events {

  import opened Wrappers

  /** The player record of a "gameFull" event: a human or bot account has an
      `id`, the server's AI has an `aiLevel`. */
  datatype Player = Player(id: Option<string>, aiLevel: Option<int>)

  datatype Event =
    | GameStart(gameId: string)                  // type "gameStart"
    | Challenge(challengeId: string)             // type "challenge"
    | GameFull(white: Player, black: Player)     // type "gameFull"
    | GameState(moves: string)                   // type "gameState"; moves joined by ' '
    | Other(kind: string)                        // any other type

  datatype Line = Blank | Malformed | Decoded(event: Event)
}
