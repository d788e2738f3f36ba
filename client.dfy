/**
 * The game client of chaionline/client.py: who moved last, splitting the
 * move list, classifying the colours of a new game, the three loops that
 * read a server stream against a deadline, the search-retry counter and the
 * registry of per-game event streams.
 *
 * A deadline `while (time() - start) < timeout` is modelled by a `budget`:
 * the number of times the guard holds before the clock runs out.
 */
module Client {

  import opened Wrappers
  import opened Enumerations
  import opened Exceptions
  import opened Events

  // ---------------------------------------------------------------------
  // Who made the last move
  // ---------------------------------------------------------------------

  /** `white_moved`: the last move when White made it, that is, when the
      move list has odd length; `None` otherwise. */
  function WhiteMoved(moves: seq<string>): (r: Option<string>)
    ensures r.Some? <==> |moves| % 2 == 1
    ensures r.Some? ==> r.value == moves[|moves| - 1]
  {
    if |moves| % 2 == 1 then Some(moves[|moves| - 1]) else None
  }

  /** `black_moved`: the last move when Black made it, that is, when the
      move list has non-zero even length; `None` for odd length. On the
      empty list Python's `moves[-1]` raises IndexError. */
  function BlackMoved(moves: seq<string>): (r: Result<Option<string>, Error>)
    ensures r.Failure? <==> |moves| == 0
    ensures r.Failure? ==> r.error == IndexError
    ensures r.Success? ==> (r.value.Some? <==> |moves| % 2 == 0)
    ensures r.Success? && r.value.Some? ==> r.value.value == moves[|moves| - 1]
  {
    if |moves| % 2 == 0 then
      if |moves| == 0 then Failure(IndexError) else Success(Some(moves[|moves| - 1]))
    else
      Success(None)
  }

  /** On a non-empty move list exactly one side made the last move. */
  lemma LastMoverIsUnique(moves: seq<string>)
    requires |moves| > 0
    ensures WhiteMoved(moves).Some? != BlackMoved(moves).value.Some?
    ensures WhiteMoved(moves).Some? ==> WhiteMoved(moves).value == moves[|moves| - 1]
    ensures BlackMoved(moves).value.Some? ==> BlackMoved(moves).value.value == moves[|moves| - 1]
  {
  }

  // ---------------------------------------------------------------------
  // Python's str.split(' ') and ' '.join
  // ---------------------------------------------------------------------

  const Space: char := ' '

  /** The number of spaces in `s`. */
  function Spaces(s: string): nat
  {
    if |s| == 0 then 0 else (if s[0] == Space then 1 else 0) + Spaces(s[1..])
  }

  /** `s.split(' ')`: cut at every single space, keeping empty pieces, so
      that `"".split(' ')` is `[""]` and a double space gives an empty piece. */
  function Split(s: string): (r: seq<string>)
    ensures |r| == Spaces(s) + 1
    ensures forall k | 0 <= k < |r| :: Space !in r[k]
  {
    if |s| == 0 then [""]
    else
      var rest := Split(s[1..]);
      if s[0] == Space then [""] + rest
      else [[s[0]] + rest[0]] + rest[1..]
  }

  /** `' '.join(pieces)`. */
  function Join(pieces: seq<string>): string
  {
    if |pieces| == 0 then ""
    else if |pieces| == 1 then pieces[0]
    else pieces[0] + [Space] + Join(pieces[1..])
  }

  /** Splitting and joining again gives back the move string. */
  lemma {:induction false} JoinSplit(s: string)
    ensures Join(Split(s)) == s
  {
    if |s| > 0 {
      var rest := Split(s[1..]);
      JoinSplit(s[1..]);
      if s[0] == Space {
        assert Split(s) == [""] + rest;
      } else {
        var head := [s[0]] + rest[0];
        assert Split(s) == [head] + rest[1..];
        if |rest| == 1 {
          assert Join(Split(s)) == head;
        } else {
          assert ([head] + rest[1..])[1..] == rest[1..];
          assert Join(rest) == rest[0] + [Space] + Join(rest[1..]);
          assert Join(Split(s)) == head + [Space] + Join(rest[1..]);
        }
      }
    }
  }

  /** Joining space-free pieces and splitting again gives back the pieces. */
  lemma {:induction false} SplitJoin(pieces: seq<string>)
    requires |pieces| > 0
    requires forall k | 0 <= k < |pieces| :: Space !in pieces[k]
    ensures Split(Join(pieces)) == pieces
  {
    if |pieces| == 1 {
      SplitPiece(pieces[0], "");
      assert pieces[0] + "" == pieces[0];
    } else {
      var tail := Join(pieces[1..]);
      SplitJoin(pieces[1..]);
      SplitPiece(pieces[0], tail);
      assert Join(pieces) == pieces[0] + ([Space] + tail);
      assert [pieces[0]] + pieces[1..] == pieces;
    }
  }

  /** Splitting a space-free word followed by `[Space] + tail` (or, when
      `tail` is empty and no space follows, the word alone). */
  lemma {:induction false} SplitPiece(word: string, tail: string)
    requires Space !in word
    ensures tail == "" ==> Split(word) == [word]
    ensures Split(word + ([Space] + tail)) == [word] + Split(tail)
  {
    if |word| > 0 {
      SplitPiece(word[1..], tail);
      assert (word + ([Space] + tail))[1..] == word[1..] + ([Space] + tail);
      assert [word[0]] + word[1..] == word;
    } else {
      assert word + ([Space] + tail) == [Space] + tail;
      assert ([Space] + tail)[1..] == tail;
    }
  }

  // ---------------------------------------------------------------------
  // The opponent's move in a "gameState" update
  // ---------------------------------------------------------------------

  /** A Python string used as a truth value. */
  predicate Truthy(m: Option<string>)
  {
    m.Some? && m.value != ""
  }

  /** The step of `wait_for_opponent_move` that looks at a "gameState"
      update: split its `moves` field and return the last token when the
      opponent made it. The token is used as a truth value, so an empty
      token (the `[""]` of a game with no moves) is no move. */
  function OpponentMove(movesField: string, opponent: Color): (r: Option<string>)
    ensures var ms := Split(movesField);
      r.Some? <==> (opponent == WHITE <==> |ms| % 2 == 1) && ms[|ms| - 1] != ""
    ensures var ms := Split(movesField); r.Some? ==> r.value == ms[|ms| - 1]
  {
    var moves := Split(movesField);
    if opponent == WHITE && Truthy(WhiteMoved(moves)) then
      Some(moves[|moves| - 1])
    else if opponent == BLACK then
      match BlackMoved(moves)
      case Success(last) => if Truthy(last) then Some(moves[|moves| - 1]) else None
      case Failure(_) => assert false; None
    else
      None
  }

  /** An update whose last move was made by the local player (the echo of
      a move just sent) yields no opponent move. */
  lemma EchoYieldsNoMove(movesField: string, opponent: Color)
    requires (|Split(movesField)| % 2 == 1) == (opponent == BLACK)
    ensures OpponentMove(movesField, opponent) == None
  {
  }

  /** A new game's moves field is empty and holds no move for either side. */
  lemma NewGameHasNoMove(opponent: Color)
    ensures OpponentMove("", opponent) == None
  {
  }

  /** The opponent's move in a well-formed update is the last piece of the
      move list it was joined from. */
  lemma OpponentMoveOfJoin(pieces: seq<string>, opponent: Color)
    requires |pieces| > 0
    requires forall k | 0 <= k < |pieces| :: Space !in pieces[k] && pieces[k] != ""
    requires (opponent == WHITE) == (|pieces| % 2 == 1)
    ensures OpponentMove(Join(pieces), opponent) == Some(pieces[|pieces| - 1])
  {
    SplitJoin(pieces);
  }

  // ---------------------------------------------------------------------
  // Colours of a new game
  // ---------------------------------------------------------------------

  /** The game descriptor `GameData`: the game id and the two colours. */
  datatype GameData = GameData(id: string, myColor: Color, opponentColor: Color)

  /** `_determine_colors`: (my colour, opponent colour) from the players of a
      "gameFull" event. When both carry an `id`, the one equal to the account
      id is mine; otherwise the side that is not the AI (`aiLevel`) is mine,
      Black's marker checked first. Any other case raises GameDataParseError. */
  function DetermineColors(white: Player, black: Player, accountId: string): (r: Result<(Color, Color), Error>)
    ensures r.Success? ==> r.value.0 != r.value.1
    ensures r.Failure? ==> r.error == GameDataParseError
    ensures white.id.Some? && black.id.Some? ==>
      (r == Success((WHITE, BLACK)) <==> white.id.value == accountId) &&
      (r == Success((BLACK, WHITE)) <==> white.id.value != accountId && black.id.value == accountId)
    ensures !(white.id.Some? && black.id.Some?) ==>
      (r == Success((WHITE, BLACK)) <==> black.aiLevel.Some?) &&
      (r == Success((BLACK, WHITE)) <==> black.aiLevel.None? && white.aiLevel.Some?)
  {
    if white.id.Some? && black.id.Some? then
      if white.id.value == accountId then Success((WHITE, BLACK))
      else if black.id.value == accountId then Success((BLACK, WHITE))
      else Failure(GameDataParseError)
    else
      if black.aiLevel.Some? then Success((WHITE, BLACK))
      else if white.aiLevel.Some? then Success((BLACK, WHITE))
      else Failure(GameDataParseError)
  }

  /** When both players are accounts the AI markers play no part. */
  lemma AccountsDecideAlone(white: Player, black: Player, white': Player, black': Player, accountId: string)
    requires white.id.Some? && black.id.Some? && white'.id == white.id && black'.id == black.id
    ensures DetermineColors(white, black, accountId) == DetermineColors(white', black', accountId)
  {
  }

  /** `_get_full_game_state`: the first line of a game stream must be the
      "gameFull" event; a blank line or any other event raises
      GameDataParseError, a line that is not JSON fails to decode, and an
      exhausted stream raises StopIteration. */
  function FullGameState(next: Result<Line, Error>): (r: Result<Event, Error>)
    ensures r.Success? <==> next.Success? && next.value.Decoded? && next.value.event.GameFull?
    ensures r.Success? ==> r.value == next.value.event
    ensures next.Failure? ==> r == Failure(next.error)
    ensures next == Success(Malformed) ==> r == Failure(JsonDecodeError)
    ensures next.Success? && next.value != Malformed && r.Failure? ==> r.error == GameDataParseError
  {
    match next
    case Failure(e) => Failure(e)
    case Success(Blank) => Failure(GameDataParseError)
    case Success(Malformed) => Failure(JsonDecodeError)
    case Success(Decoded(event)) => if event.GameFull? then Success(event) else Failure(GameDataParseError)
  }

  /** `_parse_game_data`: the game descriptor from the first line of the
      game's stream. Every descriptor it gives has two different colours. */
  function GameDataOf(gameId: string, next: Result<Line, Error>, accountId: string): (r: Result<GameData, Error>)
    ensures r.Success? ==> r.value.id == gameId && r.value.myColor != r.value.opponentColor
    ensures r.Success? <==> (FullGameState(next).Success? &&
      var full := FullGameState(next).value;
      DetermineColors(full.white, full.black, accountId).Success?)
    ensures r.Success? ==>
      var full := FullGameState(next).value;
      DetermineColors(full.white, full.black, accountId) == Success((r.value.myColor, r.value.opponentColor))
    ensures r.Failure? ==>
      r.error == (if FullGameState(next).Failure? then FullGameState(next).error else GameDataParseError)
  {
    match FullGameState(next)
    case Failure(e) => Failure(e)
    case Success(full) =>
      match DetermineColors(full.white, full.black, accountId)
      case Failure(e) => Failure(e)
      case Success(colors) => Success(GameData(gameId, colors.0, colors.1))
  }

  /** What `next(lines)` gives on a stream whose pending lines are `lines`. */
  function NextLine(lines: seq<Line>): (r: Result<Line, Error>)
    ensures r.Failure? <==> lines == []
    ensures r.Failure? ==> r.error == StopIteration
    ensures r.Success? ==> r.value == lines[0]
  {
    if lines == [] then Failure(StopIteration) else Success(lines[0])
  }

  // ---------------------------------------------------------------------
  // Reading a stream against a deadline
  // ---------------------------------------------------------------------

  /** The three loops that read a stream until a deadline:
      `_wait_for_game_start`, `_search_for_game` and the loop of
      `wait_for_opponent_move`. For `_search_for_game`, `accept(i)` is the
      outcome of `_accept_challenge` for the challenge offered on line `i`. */
  datatype Waiter =
    | AwaitGameStart
    | AwaitChallenge(accept: nat -> Result<string, Error>)
    | AwaitOpponent(opponent: Color)

  /** The exception each loop raises when its deadline passes. */
  function Timeout(w: Waiter): Error
  {
    match w
    case AwaitGameStart => GameStartTimeout
    case AwaitChallenge(_) => GameSearchTimeout
    case AwaitOpponent(_) => GameError
  }

  /** One line read by `_wait_for_game_start`: the line is decoded before it
      is inspected, so a blank keep-alive line fails to decode too. */
  function GameStartLine(line: Line): (r: Option<Result<string, Error>>)
    ensures r == Some(Failure(JsonDecodeError)) <==> !line.Decoded?
    ensures (exists id :: r == Some(Success(id))) <==> line.Decoded? && line.event.GameStart?
    ensures r.Some? && r.value.Success? ==> r.value.value == line.event.gameId
    ensures r.None? <==> line.Decoded? && !line.event.GameStart?
  {
    match line
    case Decoded(GameStart(id)) => Some(Success(id))
    case Decoded(_) => None
    case _ => Some(Failure(JsonDecodeError))
  }

  /** One line read by `_search_for_game`: a challenge is accepted; an accept
      that times out (GameStartTimeout) is swallowed and the search goes on,
      any other outcome of the accept ends the search. */
  function ChallengeLine(accept: nat -> Result<string, Error>, i: nat, line: Line): (r: Option<Result<string, Error>>)
    ensures r != Some(Failure(GameStartTimeout))
    ensures r == Some(Failure(JsonDecodeError)) <==>
      !line.Decoded? || (line.event.Challenge? && accept(i) == Failure(JsonDecodeError))
    ensures r.None? <==> line.Decoded? && (!line.event.Challenge? || accept(i) == Failure(GameStartTimeout))
    ensures line.Decoded? && line.event.Challenge? && r.Some? ==> r.value == accept(i)
  {
    match line
    case Decoded(Challenge(_)) =>
      (match accept(i)
       case Failure(GameStartTimeout) => None
       case outcome => Some(outcome))
    case Decoded(_) => None
    case _ => Some(Failure(JsonDecodeError))
  }

  /** One line read by `wait_for_opponent_move`: a blank line is skipped
      before decoding; a "gameState" update ends the wait only when it holds
      a move of the opponent. */
  function OpponentLine(opponent: Color, line: Line): (r: Option<Result<string, Error>>)
    ensures r == Some(Failure(JsonDecodeError)) <==> line == Malformed
    ensures r.Some? && r.value.Success? <==>
      line.Decoded? && line.event.GameState? && OpponentMove(line.event.moves, opponent).Some?
    ensures r.Some? && r.value.Success? ==> r.value.value == OpponentMove(line.event.moves, opponent).value
    ensures r.None? <==>
      line == Blank || (line.Decoded? && !(line.event.GameState? && OpponentMove(line.event.moves, opponent).Some?))
  {
    match line
    case Blank => None
    case Malformed => Some(Failure(JsonDecodeError))
    case Decoded(GameState(moves)) =>
      (match OpponentMove(moves, opponent)
       case Some(m) => Some(Success(m))
       case None => None)
    case Decoded(_) => None
  }

  /** What line `i` means to the loop: `None` to read on, `Some(o)` to end
      the loop with outcome `o`. */
  function Step(w: Waiter, i: nat, line: Line): Option<Result<string, Error>>
  {
    match w
    case AwaitGameStart => GameStartLine(line)
    case AwaitChallenge(accept) => ChallengeLine(accept, i, line)
    case AwaitOpponent(opponent) => OpponentLine(opponent, line)
  }

  /** The outcome of a loop and the number of lines it took from the stream. */
  datatype Await = Await(outcome: Result<string, Error>, consumed: nat)

  /** The deadline loop from line `i` on, with the guard holding for the
      reads at positions below `budget`: it ends at the first line whose step
      decides, with the timeout error once the budget is spent, or with
      StopIteration when the stream ends first. */
  function Poll(w: Waiter, lines: seq<Line>, i: nat, budget: nat): (r: Await)
    decreases budget - i
    ensures i <= r.consumed
    ensures r.consumed == i || (r.consumed <= budget && r.consumed <= |lines|)
    ensures forall j | i <= j < r.consumed - 1 :: Step(w, j, lines[j]).None?
    ensures if r.consumed > i && Step(w, r.consumed - 1, lines[r.consumed - 1]).Some?
            then r.outcome == Step(w, r.consumed - 1, lines[r.consumed - 1]).value
            else ((r.consumed >= budget && r.outcome == Failure(Timeout(w)))
               || (r.consumed < budget && r.consumed >= |lines| && r.outcome == Failure(StopIteration)))
  {
    if i >= budget then Await(Failure(Timeout(w)), i)
    else if i >= |lines| then Await(Failure(StopIteration), i)
    else
      match Step(w, i, lines[i])
      case Some(outcome) => Await(outcome, i + 1)
      case None => Poll(w, lines, i + 1, budget)
  }

  /** A search never raises GameStartTimeout: an accept that times out is
      caught inside the search, and its own deadline raises GameSearchTimeout. */
  lemma {:induction false} SearchNeverRaisesStartTimeout(accept: nat -> Result<string, Error>, lines: seq<Line>, i: nat, budget: nat)
    ensures Poll(AwaitChallenge(accept), lines, i, budget).outcome != Failure(GameStartTimeout)
    decreases budget - i
  {
    if i < budget && i < |lines| && Step(AwaitChallenge(accept), i, lines[i]).None? {
      SearchNeverRaisesStartTimeout(accept, lines, i + 1, budget);
    }
  }

  /** A wait whose first update holds no opponent move (the echo of our own
      move) and whose second does returns the second update's move. */
  lemma SecondUpdateAnswers(opponent: Color, first: string, second: string, budget: nat)
    requires budget >= 2
    requires OpponentMove(first, opponent).None? && OpponentMove(second, opponent).Some?
    ensures Poll(AwaitOpponent(opponent), [Decoded(GameState(first)), Decoded(GameState(second))], 0, budget)
         == Await(Success(OpponentMove(second, opponent).value), 2)
  {
    var lines := [Decoded(GameState(first)), Decoded(GameState(second))];
    assert Step(AwaitOpponent(opponent), 0, lines[0]).None?;
    assert Step(AwaitOpponent(opponent), 1, lines[1]) == Some(Success(OpponentMove(second, opponent).value));
  }

  /** The scenario of a game against White in which Black's reply comes in
      the second update: the first update ("e2e4", the echo of our own move)
      is skipped and the wait returns "e7e5". */
  lemma BlackReplyAfterEcho()
    ensures Poll(AwaitOpponent(BLACK), [Decoded(GameState("e2e4")), Decoded(GameState("e2e4 e7e5"))], 0, 5)
         == Await(Success("e7e5"), 2)
  {
    EchoIsNoReply();
    ReplyIsSecondMove();
    SecondUpdateAnswers(BLACK, "e2e4", "e2e4 e7e5", 5);
  }

  /** The update holding only White's "e2e4" is no move for Black's opponent. */
  lemma EchoIsNoReply()
    ensures OpponentMove("e2e4", BLACK) == None
  {
    SplitPiece("e2e4", "");
  }

  /** The update "e2e4 e7e5" holds Black's reply "e7e5". */
  lemma ReplyIsSecondMove()
    ensures OpponentMove("e2e4 e7e5", BLACK) == Some("e7e5")
  {
    var pieces := ["e2e4", "e7e5"];
    assert Join(pieces) == "e2e4 e7e5" by {
      assert Join(pieces[1..]) == "e7e5";
    }
    OpponentMoveOfJoin(pieces, BLACK);
  }

  // ---------------------------------------------------------------------
  // The search-retry counter of find_opponent
  // ---------------------------------------------------------------------

  /** The `while 1` loop of `find_opponent` from `count` failed attempts on,
      where `outcome(k)` is what the search of attempt `k` returns or raises
      and `caught` is the exception the loop counts: a found game ends the
      loop; a `caught` failure is counted and raises GameSearchMaxTries once
      the count reaches `attempts`; any other exception propagates. */
  function SearchRetry(outcome: nat -> Result<string, Error>, attempts: int, caught: Error, count: nat): (r: Result<string, Error>)
    decreases attempts - count
  {
    match outcome(count)
    case Success(id) => Success(id)
    case Failure(e) =>
      if e != caught then Failure(e)
      else if count + 1 >= attempts then Failure(GameSearchMaxTries)
      else SearchRetry(outcome, attempts, caught, count + 1)
  }

  /** The number of searches the loop may make: at least one, since the
      count is compared only after a failure. */
  function MaxSearches(attempts: int): (n: nat)
    ensures n >= 1 && n >= attempts
    ensures attempts >= 1 ==> n == attempts
    ensures attempts < 1 ==> n == 1
  {
    if attempts < 1 then 1 else attempts
  }

  /** The retry loop gives up with GameSearchMaxTries when every allowed
      search fails with the counted exception, and otherwise gives the
      outcome of the first search that does not. */
  lemma {:induction false} SearchRetryOutcome(outcome: nat -> Result<string, Error>, attempts: int, caught: Error, count: nat)
    requires count < MaxSearches(attempts)
    ensures (forall k | count <= k < MaxSearches(attempts) :: outcome(k) == Failure(caught)) ==>
      SearchRetry(outcome, attempts, caught, count) == Failure(GameSearchMaxTries)
    ensures forall k | count <= k < MaxSearches(attempts) ::
      outcome(k) != Failure(caught) && (forall j | count <= j < k :: outcome(j) == Failure(caught)) ==>
      SearchRetry(outcome, attempts, caught, count) == outcome(k)
    decreases attempts - count
  {
    if outcome(count) == Failure(caught) && count + 1 < attempts {
      SearchRetryOutcome(outcome, attempts, caught, count + 1);
    }
  }

  /** `find_opponent` as written counts GameStartTimeout. */
  function SearchRetryAsWritten(outcome: nat -> Result<string, Error>, attempts: int): Result<string, Error>
  {
    SearchRetry(outcome, attempts, GameStartTimeout, 0)
  }

  /** The counter as evidently intended: a search that runs out of time
      (GameSearchTimeout) is counted and retried. */
  function SearchRetryIntended(outcome: nat -> Result<string, Error>, attempts: int): Result<string, Error>
  {
    SearchRetry(outcome, attempts, GameSearchTimeout, 0)
  }

  /** The outcome of one search attempt: `_search_for_game` over the lines
      of a fresh event stream, within its own budget. */
  datatype SearchAttempt = SearchAttempt(lines: seq<Line>, budget: nat, accept: nat -> Result<string, Error>)

  function SearchOutcome(a: SearchAttempt): (r: Result<string, Error>)
    ensures r != Failure(GameStartTimeout)
  {
    SearchNeverRaisesStartTimeout(a.accept, a.lines, 0, a.budget);
    Poll(AwaitChallenge(a.accept), a.lines, 0, a.budget).outcome
  }

  /** The outcomes of successive search attempts. */
  function SearchOutcomes(attempts: nat -> SearchAttempt): nat -> Result<string, Error>
  {
    (k: nat) => SearchOutcome(attempts(k))
  }

  /** As written, the retry loop never retries: no search raises the
      GameStartTimeout it counts, so the first search's outcome is final,
      and a search that times out raises GameSearchTimeout, never
      GameSearchMaxTries. */
  lemma AsWrittenNeverRetries(attempts: nat -> SearchAttempt, n: int)
    ensures SearchRetryAsWritten(SearchOutcomes(attempts), n) == SearchOutcome(attempts(0))
  {
  }

  /** One attempt allowed, and the deadline of every search passes before a
      line arrives: as written the loop raises GameSearchTimeout, while the
      intended counter raises GameSearchMaxTries. */
  lemma ExhaustedSearchDiffers(attempts: nat -> SearchAttempt)
    requires forall k: nat :: attempts(k).budget == 0
    ensures SearchRetryAsWritten(SearchOutcomes(attempts), 1) == Failure(GameSearchTimeout)
    ensures SearchRetryIntended(SearchOutcomes(attempts), 1) == Failure(GameSearchMaxTries)
  {
    assert SearchOutcomes(attempts)(0) == Failure(GameSearchTimeout);
  }

  /** With two attempts allowed, a timed-out first search followed by one
      that finds game "g": as written the timeout propagates, the intended
      counter retries and finds the game. */
  lemma RetryFindsSecondGame()
    ensures var outcome := (k: nat) => if k == 0 then Failure(GameSearchTimeout) else Success("g");
      SearchRetryAsWritten(outcome, 2) == Failure(GameSearchTimeout) &&
      SearchRetryIntended(outcome, 2) == Success("g")
  {
  }

  // ---------------------------------------------------------------------
  // Streams and the registry of game event streams
  // ---------------------------------------------------------------------

  /** The path of the account's event stream. */
  const EventStreamPath: string := "api/stream/event"

  /** The path of the event stream of one game. */
  function GameStreamPath(gameId: string): string
  {
    "api/bot/game/stream/" + gameId
  }

  /** Different games have different stream paths, so a registered stream
      serves one game only. */
  lemma GameStreamPathInjective(a: string, b: string)
    ensures GameStreamPath(a) == GameStreamPath(b) <==> a == b
  {
    if GameStreamPath(a) == GameStreamPath(b) {
      var prefix := |"api/bot/game/stream/"|;
      assert a == GameStreamPath(a)[prefix..];
      assert b == GameStreamPath(b)[prefix..];
    }
  }

  /** What is left of a stream after `next(lines)`. */
  function Rest(lines: seq<Line>): (r: seq<Line>)
    ensures lines != [] ==> r == lines[1..]
    ensures lines == [] ==> r == []
  {
    if lines == [] then [] else lines[1..]
  }

  /** A live line-delimited stream opened with `get(path, stream=True)`:
      `pending` holds the lines the server has yet to deliver on it. */
  class Stream {
    const path: string
    var pending: seq<Line>

    constructor (path: string, lines: seq<Line>)
      ensures this.path == path && pending == lines
    {
      this.path := path;
      pending := lines;
    }

    /** `next(lines)`: the next line, or StopIteration once the server has
        closed the stream. */
    method Next() returns (r: Result<Line, Error>)
      modifies this
      ensures r == NextLine(old(pending))
      ensures pending == Rest(old(pending))
    {
      if pending == [] {
        r := Failure(StopIteration);
      } else {
        r := Success(pending[0]);
        pending := pending[1..];
      }
    }
  }

  /** The deadline loop of `w` run on `stream`: it reads line after line
      while the budget lasts and leaves the unread lines on the stream. */
  method PollStream(w: Waiter, stream: Stream, budget: nat) returns (outcome: Result<string, Error>)
    modifies stream
    ensures var a := Poll(w, old(stream.pending), 0, budget);
      outcome == a.outcome && stream.pending == old(stream.pending)[a.consumed..]
  {
    ghost var lines := stream.pending;
    var count: nat := 0;
    while count < budget
      invariant count <= |lines|
      invariant stream.pending == lines[count..]
      invariant Poll(w, lines, count, budget) == Poll(w, lines, 0, budget)
      decreases budget - count
    {
      var next := stream.Next();
      if next.Failure? {
        return Failure(next.error);
      }
      count := count + 1;
      var step := Step(w, count - 1, next.value);
      if step.Some? {
        return step.value;
      }
    }
    outcome := Failure(Timeout(w));
  }

  /** A request the client posts to the server. */
  datatype Post =
    | ChallengeAiPost(level: int, color: Color)   // api/challenge/ai
    | ResignPost(gameId: string)                  // api/bot/game/{id}/resign

  /** `GameClient`: the registry `streams` maps a game id to the event
      stream opened for it; `posted` logs the requests sent. */
  class GameClient {
    /** The account id, looked up over HTTP in the source. */
    const accountId: string
    const defaultSearchAttempts: int := 1
    const defaultAiLevel: int := 2
    var streams: map<string, Stream>
    var posted: seq<Post>

    /** Each registered stream is the one of its own game. */
    ghost predicate Valid()
      reads this
    {
      forall id | id in streams :: streams[id].path == GameStreamPath(id)
    }

    /** The lines a game's stream will deliver next: those pending on the
        registered stream, or those of a new subscription. */
    ghost function Source(gameId: string, serverLines: seq<Line>): seq<Line>
      reads this, streams.Values
    {
      if gameId in streams then streams[gameId].pending else serverLines
    }

    constructor (accountId: string)
      ensures Valid()
      ensures this.accountId == accountId && streams == map[] && posted == []
    {
      this.accountId := accountId;
      streams := map[];
      posted := [];
    }

    /** `_get_game_event_stream`: the registered stream of the game if there
        is one, else a new subscription, which is not registered (the method
        changes no field of the client). */
    method GetGameEventStream(gameId: string, serverLines: seq<Line>) returns (s: Stream)
      requires Valid()
      ensures s.path == GameStreamPath(gameId)
      ensures gameId in streams ==> s == streams[gameId]
      ensures gameId !in streams ==> fresh(s) && s.pending == serverLines
    {
      if gameId in streams {
        s := streams[gameId];
      } else {
        s := new Stream(GameStreamPath(gameId), serverLines);
      }
    }

    /** `self._game_event_streams[id] = self._get_game_event_stream(id)`:
        registering keeps a stream already registered for the game, so
        there is at most one stream per game. */
    method RegisterGameEventStream(gameId: string, serverLines: seq<Line>)
      requires Valid()
      modifies this
      ensures Valid() && posted == old(posted)
      ensures gameId in old(streams) ==> streams == old(streams)
      ensures gameId !in old(streams) ==>
        gameId in streams && fresh(streams[gameId]) && streams[gameId].pending == serverLines &&
        streams == old(streams)[gameId := streams[gameId]]
    {
      var s := GetGameEventStream(gameId, serverLines);
      streams := streams[gameId := s];
    }

    /** `_parse_game_data`: reads the first line of the game's stream and
        classifies the colours. */
    method ParseGameData(gameId: string, serverLines: seq<Line>) returns (r: Result<GameData, Error>)
      requires Valid()
      modifies if gameId in streams then {streams[gameId]} else {}
      ensures r == GameDataOf(gameId, NextLine(old(Source(gameId, serverLines))), accountId)
      ensures gameId in streams ==> streams[gameId].pending == Rest(old(streams[gameId].pending))
    {
      var s := GetGameEventStream(gameId, serverLines);
      var next := s.Next();
      r := GameDataOf(gameId, next, accountId);
    }

    /** `_wait_for_game_start`: the first "gameStart" event on a new
        subscription to the account's event stream. */
    method WaitForGameStart(lines: seq<Line>, budget: nat) returns (r: Result<string, Error>)
      ensures r == Poll(AwaitGameStart, lines, 0, budget).outcome
    {
      var stream := new Stream(EventStreamPath, lines);
      r := PollStream(AwaitGameStart, stream, budget);
    }

    /** `_search_for_game`: accept challenges from the account's event
        stream until one starts a game or the search deadline passes. */
    method SearchForGame(lines: seq<Line>, budget: nat, accept: nat -> Result<string, Error>) returns (r: Result<string, Error>)
      ensures r == SearchOutcome(SearchAttempt(lines, budget, accept))
    {
      var stream := new Stream(EventStreamPath, lines);
      r := PollStream(AwaitChallenge(accept), stream, budget);
    }

    /** After a game `id` has started: its stream is registered and the
        game descriptor is parsed from the stream's first line. */
    twostate predicate Started(id: string, serverLines: seq<Line>, new r: Result<GameData, Error>)
      reads this, streams.Values
    {
      && id in streams
      && (id in old(streams) ==> streams == old(streams))
      && (id !in old(streams) ==> fresh(streams[id]) && streams == old(streams)[id := streams[id]])
      && r == GameDataOf(id, NextLine(old(Source(id, serverLines))), accountId)
      && streams[id].pending == Rest(old(Source(id, serverLines)))
      && (forall g | g in old(streams) && g != id && g in streams :: streams[g].pending == old(streams[g].pending))
    }

    /** Registers the stream of a game that has started and parses it. */
    method StartGame(id: string, serverLines: seq<Line>) returns (r: Result<GameData, Error>)
      requires Valid()
      modifies this, streams.Values
      ensures Valid() && posted == old(posted)
      ensures Started(id, serverLines, r)
    {
      RegisterGameEventStream(id, serverLines);
      forall g | g in streams && g != id
        ensures streams[g] != streams[id]
      {
        GameStreamPathInjective(g, id);
      }
      r := ParseGameData(id, serverLines);
    }

    /** `find_opponent`, with the retry loop counting the exception
        `caught`: the source as written counts GameStartTimeout
        (`SearchRetryAsWritten`), the intended loop GameSearchTimeout
        (`SearchRetryIntended`). */
    method FindOpponent(caught: Error, attempts: nat -> SearchAttempt, nSearchAttempts: Option<int>, serverLines: seq<Line>)
      returns (r: Result<GameData, Error>)
      requires Valid()
      modifies this, streams.Values
      ensures Valid() && posted == old(posted)
      ensures var n := if nSearchAttempts.Some? then nSearchAttempts.value else defaultSearchAttempts;
        match SearchRetry(SearchOutcomes(attempts), n, caught, 0)
        case Failure(e) =>
          r == Failure(e) && streams == old(streams) &&
          forall g | g in streams :: streams[g].pending == old(streams[g].pending)
        case Success(id) => Started(id, serverLines, r)
    {
      var n := if nSearchAttempts.Some? then nSearchAttempts.value else defaultSearchAttempts;
      ghost var outcome := SearchOutcomes(attempts);
      var searchCount: nat := 0;
      var newGameId: string;
      while true
        invariant searchCount < MaxSearches(n)
        invariant SearchRetry(outcome, n, caught, searchCount) == SearchRetry(outcome, n, caught, 0)
        modifies {}
        decreases n - searchCount
      {
        var a := attempts(searchCount);
        var found := SearchForGame(a.lines, a.budget, a.accept);
        if found.Success? {
          newGameId := found.value;
          break;
        }
        if found.error != caught {
          return Failure(found.error);
        }
        searchCount := searchCount + 1;
        if searchCount >= n {
          return Failure(GameSearchMaxTries);
        }
      }
      r := StartGame(newGameId, serverLines);
    }

    /** `challenge_ai`: post a challenge to the AI at the given level (the
        client's default when none is given) with us as White, then wait for
        the game to start; a timeout is final. */
    method ChallengeAi(aiLevel: Option<int>, startLines: seq<Line>, startBudget: nat, serverLines: seq<Line>)
      returns (r: Result<GameData, Error>)
      requires Valid()
      modifies this, streams.Values
      ensures Valid()
      ensures posted == old(posted) + [ChallengeAiPost(if aiLevel.Some? then aiLevel.value else defaultAiLevel, WHITE)]
      ensures match Poll(AwaitGameStart, startLines, 0, startBudget).outcome
        case Failure(e) =>
          r == Failure(e) && streams == old(streams) &&
          forall g | g in streams :: streams[g].pending == old(streams[g].pending)
        case Success(id) => Started(id, serverLines, r)
    {
      var level := if aiLevel.Some? then aiLevel.value else defaultAiLevel;
      posted := posted + [ChallengeAiPost(level, WHITE)];
      var started := WaitForGameStart(startLines, startBudget);
      if started.Failure? {
        return Failure(started.error);
      }
      r := StartGame(started.value, serverLines);
    }

    /** `wait_for_opponent_move`: read the game's stream until an update
        holds a move of the opponent or the deadline (counted from this call)
        passes. */
    method WaitForOpponentMove(game: GameData, budget: nat, serverLines: seq<Line>) returns (r: Result<string, Error>)
      requires Valid()
      modifies if game.id in streams then {streams[game.id]} else {}
      ensures var a := Poll(AwaitOpponent(game.opponentColor), old(Source(game.id, serverLines)), 0, budget);
        r == a.outcome &&
        (game.id in streams ==> streams[game.id].pending == old(streams[game.id].pending)[a.consumed..])
    {
      var s := GetGameEventStream(game.id, serverLines);
      r := PollStream(AwaitOpponent(game.opponentColor), s, budget);
    }

    /** `_game_over`: unregister the game's stream; `dict.pop` raises
        KeyError for a game that is not registered. */
    method GameOver(gameId: string) returns (r: Outcome<Error>)
      requires Valid()
      modifies this
      ensures Valid() && posted == old(posted)
      ensures gameId in old(streams) ==> r == Pass && streams == old(streams) - {gameId}
      ensures gameId !in old(streams) ==> r == Fail(KeyError) && streams == old(streams)
    {
      if gameId in streams {
        streams := streams - {gameId};
        r := Pass;
      } else {
        r := Fail(KeyError);
      }
    }

    /** `resign`: for a registered game, post the resignation and unregister
        its stream; for any other game, do nothing. */
    method Resign(game: GameData)
      requires Valid()
      modifies this
      ensures Valid()
      ensures game.id in old(streams) ==>
        posted == old(posted) + [ResignPost(game.id)] && streams == old(streams) - {game.id}
      ensures game.id !in old(streams) ==> posted == old(posted) && streams == old(streams)
    {
      if game.id in streams {
        posted := posted + [ResignPost(game.id)];
        var _ := GameOver(game.id);
      }
    }
  }
}
