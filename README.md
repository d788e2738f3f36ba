# chai-online: the game client and the online game loop, in Dafny

chai-online is a small client that plays chess on a remote game server
through an automated agent. It has two parts, and both are modelled here.

The first is the game client of `chaionline/client.py`, in `client.dfy`
(module `Client`):

- the side that moved last, read from the move list's parity;
- the opponent's move in a "gameState" update;
- the colour classification of a "gameFull" event;
- the three loops that read an event stream until a deadline:
  `_wait_for_game_start`, `_search_for_game` and `wait_for_opponent_move`;
- the retry counter of `find_opponent`;
- the registry of game event streams that `_get_game_event_stream`,
  `find_opponent`, `challenge_ai`, `_game_over` and `resign` read and change.

The second is the online game loop `PlayOnline._loop` and the AI-level
clamp of `PlayAgainstAI` in `chaionline/play.py`, in `play.dfy` (module
`Play`). The properties of the loop's action trace are in `traces.dfy`
(module `PlayTraces`).

The supporting modules are these:

- `wrappers.dfy`: `Option`, `Result` and `Outcome`;
- `enumerations.dfy`: `Color` and `GameResult`;
- `exceptions.dfy`: the exceptions of `chaionline/exceptions.py`, plus the
  Python built-ins the core can raise (JSON decoding, `StopIteration`,
  `KeyError`, `IndexError`);
- `events.dfy`: the decoded stream lines.

How the model stands in for what it cannot run:

- **Time.** Each deadline loop `while (time() - start) < timeout` has a
  `budget: nat`. It is the number of times the time guard passes, so the
  loop reads at most `budget` lines and then raises its timeout exception.
- **Streams.** A stream is a `Stream` object holding the lines the server
  has yet to deliver. `next(lines)` takes the first one, or raises
  `StopIteration` once there are none.
- **Lines.** A line is `Blank`, `Malformed` (not JSON) or a decoded `Event`.
- **Registry and requests.** `GameClient` keeps the registry
  `_game_event_streams` as a `map<string, Stream>` field. Only two kinds
  of request are logged, in a `posted` log: the AI challenge and the
  resignation. The accept request of `_accept_challenge` is not logged (see
  Left out).
- **The game loop.** The board is the sequence of moves pushed onto it.
  `is_game_over` and `result` are functions of that sequence, and the agent
  is a function from the board to its move. The opponent is the sequence of
  moves that successive waits return; after the last one, the wait raises
  `ending`.
- **What the loop did.** The loop's actions are recorded as a trace: wait,
  push the opponent's move, push our move, send it, notify the result.

### Behaviour of the code worth knowing

- **Deadline.** The opponent-move deadline restarts on every call of
  `wait_for_opponent_move` (`time_start = time()`, client.py:315). Each wait
  in the model has its own budget.
- **Which timeout is retried.** `find_opponent` counts `GameStartTimeout`,
  which the search never raises (see Findings). `FindOpponent` takes the
  counted exception as a parameter, so it models both the code as written
  and the corrected loop.
- **Where the level is clamped.** Only `PlayAgainstAI.__init__` clamps the
  AI level; `challenge_ai` posts any level it is given. `ChallengeAi` posts
  its argument unchanged, and `PlayAgainstAI.FindGame` is the member that
  promises a level in [1, 8].
- **Keep-alive lines.** `_wait_for_game_start` and `_search_for_game` decode
  a line before testing it, so a blank keep-alive line raises a JSON decoding
  error. `wait_for_opponent_move` skips blank lines.
- **Streams are not released on errors.** `_loop` never calls `_game_over`,
  and no exception path unregisters a stream.
- **Game over after the opening move.** The loop does not check for game
  over after White's opening move; the first check follows the opponent's
  reply.

## Model

| member | source | states |
|---|---|---|
| Client.WhiteMoved | chaionline/client.py:97-99 | the last move is returned exactly when the list has odd length, and nothing otherwise |
| Client.BlackMoved | chaionline/client.py:102-104 | the last move is returned exactly when the length is even and non-zero; odd length gives nothing; the empty list raises IndexError (`moves[-1]`) |
| Client.LastMoverIsUnique | chaionline/client.py:97-104 | on a non-empty move list exactly one of the two sides made the last move |
| Client.Split | chaionline/client.py:322 | `str.split(' ')` gives one more piece than there are spaces, and no piece contains a space |
| Client.JoinSplit | chaionline/client.py:322 | joining the pieces with spaces gives back the moves string |
| Client.SplitJoin | chaionline/client.py:322 | splitting a space-joined list of space-free pieces gives back the list |
| Client.SplitPiece | chaionline/client.py:322 | a space-free word followed by a space splits into the word and the split of the rest |
| Client.OpponentMove | chaionline/client.py:322-326 | a move is returned exactly when the opponent's colour matches the parity of the split list and the last piece is non-empty (used as a truth value); the move is then the last piece |
| Client.EchoYieldsNoMove | chaionline/client.py:322-326 | an update whose move count has our parity (the echo of our own move) gives no move |
| Client.NewGameHasNoMove | chaionline/client.py:322-326 | a new game's empty moves field (`"".split(' ') == ['']`) gives no move for either side |
| Client.OpponentMoveOfJoin | chaionline/client.py:322-326 | for a well-formed move list of the opponent's parity, the move returned is the list's last move |
| Client.DetermineColors | chaionline/client.py:231-244 | with both ids present: (WHITE, BLACK) iff the white id is the account's, (BLACK, WHITE) iff only the black id is; otherwise black's `aiLevel`, checked first, gives (WHITE, BLACK) and white's gives (BLACK, WHITE); every other case raises GameDataParseError, and a success always has two different colours |
| Client.AccountsDecideAlone | chaionline/client.py:231-236 | when both players carry an id, the `aiLevel` markers do not affect the classification |
| Client.FullGameState | chaionline/client.py:210-219 | the first line is accepted exactly when it decodes to a "gameFull" event; a blank line or another event raises GameDataParseError, an undecodable line a JSON error, and an ended stream passes its error on |
| Client.GameDataOf | chaionline/client.py:246-257 | a descriptor is returned exactly when the first line is "gameFull" and the colours classify; it carries the game id and the classified, distinct colours; a failure carries the first line's error, or GameDataParseError when the colours do not classify |
| Client.NextLine | chaionline/client.py:318 | `next(lines)` gives the first pending line, and StopIteration exactly when none is left |
| Client.GameStartLine | chaionline/client.py:156-160 | a "gameStart" event ends the wait with its game id; a blank or undecodable line raises the JSON error; the wait reads on exactly on a decoded event other than "gameStart" |
| Client.ChallengeLine | chaionline/client.py:192-200 | a challenge ends the search with the accept's outcome unless that outcome is GameStartTimeout, which is swallowed; the step never yields GameStartTimeout; blank or undecodable lines raise the JSON error |
| Client.OpponentLine | chaionline/client.py:318-326 | the wait reads on exactly on a blank line or a decoded event that is not a "gameState" update holding an opponent move; an undecodable line raises the JSON error; a "gameState" update holding an opponent move ends the wait with that move |
| Client.Poll | chaionline/client.py:156-161 | the deadline loop (shared by the three loops): every line before the deciding one is skipped; the outcome is the deciding line's, or the loop's timeout error once the budget is spent, or StopIteration when the stream ends first |
| Client.SearchNeverRaisesStartTimeout | chaionline/client.py:191-201 | `_search_for_game` never raises GameStartTimeout |
| Client.SecondUpdateAnswers | chaionline/client.py:317-326 | a wait whose first update holds no opponent move and whose second does returns the second update's move after reading two lines |
| Client.BlackReplyAfterEcho | chaionline/client.py:317-326 | as White, the updates "e2e4" then "e2e4 e7e5" make the wait return "e7e5" |
| Client.EchoIsNoReply | chaionline/client.py:322-326 | "e2e4" holds no move of Black |
| Client.ReplyIsSecondMove | chaionline/client.py:322-326 | "e2e4 e7e5" holds Black's move "e7e5" |
| Client.MaxSearches | chaionline/client.py:271-281 | the closed-form number of searches: the allowed number when that is at least 1, and one otherwise; `SearchRetryOutcome` proves that the loop gives up after that many searches |
| Client.SearchRetryOutcome | chaionline/client.py:271-281 | the retry loop raises GameSearchMaxTries when every allowed search fails with the counted exception, and otherwise gives the outcome of the first search that does not |
| Client.SearchOutcome | chaionline/client.py:176-201 | the outcome of one search is never GameStartTimeout |
| Client.AsWrittenNeverRetries | chaionline/client.py:271-281 | as written, the loop's outcome is always the first search's outcome |
| Client.ExhaustedSearchDiffers | chaionline/client.py:271-281 | with one attempt allowed and every search timing out, the loop as written raises GameSearchTimeout, and the intended loop raises GameSearchMaxTries |
| Client.RetryFindsSecondGame | chaionline/client.py:271-281 | with two attempts and a first search that times out, the loop as written fails and the intended loop finds the second game |
| Client.Rest | chaionline/client.py:318 | a read leaves all but the first line pending, and nothing on an ended stream |
| Client.Stream.Next | chaionline/client.py:318 | the line returned is `NextLine` of the pending lines, and exactly that line is consumed |
| Client.PollStream | chaionline/client.py:317-328 | reading the stream step by step has exactly the outcome `Poll` describes, and leaves exactly the unread lines on the stream |
| Client.GameClient.constructor | chaionline/client.py:135-142 | a new client has an empty registry and has posted nothing |
| Client.GameClient.GetGameEventStream | chaionline/client.py:203-208 | the registered stream is returned when the id is present; on a miss a new subscription to the game's stream is returned and nothing is registered |
| Client.GameClient.RegisterGameEventStream | chaionline/client.py:283 | registering keeps an already registered stream, and otherwise adds only the new game's stream |
| Client.GameClient.ParseGameData | chaionline/client.py:246-257 | the descriptor is `GameDataOf` the first line of the game's stream, and that line is consumed from a registered stream |
| Client.GameClient.WaitForGameStart | chaionline/client.py:144-161 | the game id is the outcome of the game-start loop on a new subscription to the event stream |
| Client.GameClient.SearchForGame | chaionline/client.py:176-201 | the result is the search-loop outcome on a new subscription to the event stream |
| Client.GameClient.StartGame | chaionline/client.py:283-285 | the started game's stream is registered, only that entry changes, the descriptor is parsed from the stream's first line, and every other registered stream keeps its pending lines |
| Client.GameClient.FindOpponent | chaionline/client.py:259-285 | the retry loop counting the exception `caught` (GameStartTimeout as written, GameSearchTimeout as intended, see Findings) has the outcome `SearchRetry` gives; a failure changes no stream and is passed on; a found game is registered and parsed, and the other registered streams keep their pending lines (`Started`) |
| Client.GameClient.ChallengeAi | chaionline/client.py:287-311 | exactly one AI challenge is posted, at the given level or the default 2 and with us as White; a start timeout is final and changes no stream; a started game is registered and parsed, and the other registered streams keep their pending lines |
| Client.GameClient.WaitForOpponentMove | chaionline/client.py:313-328 | the result is the opponent-wait loop over the game's stream, with the deadline counted from this call, and the lines read are consumed from a registered stream |
| Client.GameClient.GameOver | chaionline/client.py:330-331 | a registered game's stream is removed; popping an unregistered id raises KeyError and changes nothing |
| Client.GameClient.Resign | chaionline/client.py:333-336 | a registered game is resigned (posted) and unregistered; an unregistered game is a no-op |
| Play.ResultFor | chaionline/play.py:133-138 | "1/2-1/2" is a DRAW whatever my colour; White wins exactly on "1-0" and Black exactly on "0-1"; any other string, "*" included, is a LOSS |
| Play.DecisiveResultIsZeroSum | chaionline/play.py:133-138 | a decisive result is a win for one colour exactly when it is a loss for the other |
| Play.ClampLevel | chaionline/play.py:162 | `min(8, max(1, level))` is in [1, 8]; it leaves values in range unchanged and sends lower values to 1 and higher ones to 8 |
| Play.ClampIsIdempotent | chaionline/play.py:162 | clamping twice is clamping once |
| Play.PlayAgainstAI.constructor | chaionline/play.py:161-163 | the stored level is the clamped one, so it lies in [1, 8] |
| Play.PlayAgainstAI.FindGame | chaionline/play.py:165-166 | the challenge posted to the server carries the stored level, which lies in [1, 8], with us as White; the descriptor returned and the registry are those of `challenge_ai` (a start failure changes no stream, a started game is registered and parsed) |
| Play.RoundEndsOnOpponent | chaionline/play.py:88-107 | an opponent's move that leaves the board over ends the loop right after it is pushed |
| Play.RoundEndsOnOwn | chaionline/play.py:110-130 | our move that leaves the board over ends the loop right after it is pushed and sent |
| Play.RoundContinues | chaionline/play.py:86-130 | a round with no game over waits, pushes the opponent's move, then pushes and sends the agent's move, and the loop goes on |
| Play.PlayRounds | chaionline/play.py:86-130 | the `while 1` loop, step by step, yields exactly the board, actions and exception that `Rounds` describes |
| Play.OnlineLoop | chaionline/play.py:59-143 | `_loop` step by step yields exactly the board, actions and ending that `PlaySession` describes |
| PlayTraces.RoundsBoard | chaionline/play.py:86-130 | the final board is the start board with the trace's pushes replayed onto it |
| PlayTraces.RoundsInOrder | chaionline/play.py:88-112 | each round starts with a wait; the opponent's move is pushed right after its wait; our move is pushed right after the opponent's and sent right after being pushed; we wait again only after sending; no result is told inside the loop |
| PlayTraces.RoundsChecked | chaionline/play.py:105-130 | the agent is asked for a move on the board as it stands; every board check but the last found the board not over; the loop leaves without an exception only on a check that found it over, and otherwise ends on a raised wait |
| PlayTraces.RoundsReplies | chaionline/play.py:88-89 | the opponent's moves pushed are the replies in order, and a wait raises only after every reply was used |
| PlayTraces.RoundsEnd | chaionline/play.py:86-130 | the loop tells no result; it stops without an exception only on a board that is over, and with one only after every reply was used |
| PlayTraces.SessionOpening | chaionline/play.py:79-88 | as White exactly one move, the agent's move on the empty board, is pushed and sent before the first wait; as Black the session begins with the wait |
| PlayTraces.SessionBoard | chaionline/play.py:76-130 | the session's final board is the replay of every push in its trace, the opening move included |
| PlayTraces.SessionEnd | chaionline/play.py:132-143 | a result is told exactly once, as the last action, only on a board that is over, and it is `ResultFor` that board and my colour; a session that raises tells nothing and raises the find-game error or, after every reply, the wait's error |
| PlayTraces.SessionMoves | chaionline/play.py:79-112 | over the whole session the agent is asked for each move on the board as it stands, and the opponent's moves are a prefix of the replies, in order |

## Left out

- HTTP transport. `Client.request`/`get`/`post`, `AuthenticatedSession`, the `account_info` lookup and `make_move` are network I/O. The account id is a constructor parameter, sends are entries of the `posted` log or `Send` actions, and transport failures are not modelled.
- The whole `_accept_challenge` call (client.py:163-174). This is its accept POST plus the `_wait_for_game_start` loop it runs. It is the parameter `accept(i)` of the search for the challenge on line `i`, and that parameter is unconstrained. So the model neither ties `accept(i)` to `Poll(AwaitGameStart, …)` nor bounds the errors it can raise, and it does not log the accept POST. `FindOpponent`'s `posted == old(posted)` therefore speaks only of the AI challenges and resignations that the log records.
- Configuration. `load_config` and `ClientConfig` read a YAML file.
- Wall-clock time. Each deadline is a budget of guard passes; the timeout values (2 s, 30 s, 300 s) are not modelled.
- JSON decoding. A line is already classified as blank, undecodable or a decoded event.
- Missing JSON fields. A `KeyError` on a missing field (such as `update['type']`, or the `'white'`/`'black'` keys of a "gameFull" event) is not modelled. A player without `id` or `aiLevel` keys is modelled: it is a `Player` with `None` in that field, and `'id' in ….keys()` does not raise.
- The `threaded` decorator. It is about concurrency and is unused.
- Chess rules. Move legality, `chess.Move.from_uci` and `board.result()` belong to the chess library; `is_game_over` and `result` are uninterpreted functions of the move sequence.
- Rendering. Board printing and image output in the loop are UI and file I/O.
- The agent's policy. `RandomAgent` is random choice over the chess library's legal moves; the agent is any function of the board, and `result_was` is the `Notify` action.
- `PlayAgainstHuman.find_game`. It only calls `find_opponent`; `OnlineLoop` takes the found game, or the error of finding it, as its input.
- Failures inside the loop other than the wait. The only exception the loop's model can raise is the one that ends `wait_for_opponent_move`; a failing `make_move` or `from_uci` is not modelled.
- `Play.OnlineLoop` and `Play.PlayRounds`: the opponent's replies are fixed in advance rather than read from the registered stream, so the link from the wait's stream to the loop's replies is not part of the model.
- `Client.GameClient.StartGame` and `Client.GameClient.FindOpponent`: the game stream's lines are given as `serverLines`, the same for every call in one run.

## Findings

| source | as written | input that shows it | evidently intended | confidence | as-written member | corrected member |
|---|---|---|---|---|---|---|
| chaionline/client.py:271-281 | `find_opponent` counts only `GameStartTimeout`, but `_search_for_game` catches that exception itself (line 198) and raises `GameSearchTimeout` when its deadline passes (line 201). So the count never moves: the first search's timeout propagates and `GameSearchMaxTries` is unreachable (`Client.AsWrittenNeverRetries`). | `n_search_attempts = 1` with a search that times out: as written it raises `GameSearchTimeout` instead of `GameSearchMaxTries` (`Client.ExhaustedSearchDiffers`). With `n_search_attempts = 2`, a timed-out first search and a second that finds game "g", as written it fails instead of finding "g" (`Client.RetryFindsSecondGame`). | count the search timeout (`except GameSearchTimeout`), retry up to `n_search_attempts` searches, then raise `GameSearchMaxTries`; the docstring of `_search_for_game` (lines 185-186) names the wrong exception in the same way. `Client.GameClient.FindOpponent` runs either loop: `caught` = GameStartTimeout is the code as written, `caught` = GameSearchTimeout the correction | not executed | Client.SearchRetryAsWritten | Client.SearchRetryIntended |
