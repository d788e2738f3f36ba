/**
 * The game session of chaionline/play.py: the online game loop
 * `PlayOnline._loop` and the AI level clamp of `PlayAgainstAI`.
 *
 * The chess board is the sequence of moves pushed onto it; whether it is
 * over (`is_game_over`) and its result string (`result`) are functions of
 * that sequence supplied by the caller. The agent is a function from the
 * board to its chosen move. The opponent is the sequence of moves that
 * successive waits return, after which the wait raises `ending`.
 */
module Play {

  import opened Wrappers
  import opened Enumerations
  import opened Exceptions
  import opened Client

  type Move = string

  // ---------------------------------------------------------------------
  // Result of a finished game
  // ---------------------------------------------------------------------

  /** The game result for the player of `myColor` given the board's result
      string: "1/2-1/2" is a draw; otherwise a win exactly when the winning
      side's string ("1-0" for White, "0-1" for Black) is mine, and a loss
      for any other string, the unfinished "*" included. */
  function ResultFor(boardResult: string, myColor: Color): (r: GameResult)
    ensures r == DRAW <==> boardResult == "1/2-1/2"
    ensures myColor == WHITE ==> (r == WIN <==> boardResult == "1-0")
    ensures myColor == BLACK ==> (r == WIN <==> boardResult == "0-1")
    ensures r == LOSS <==> boardResult != "1/2-1/2" && boardResult != WinString(myColor)
  {
    if boardResult == "1/2-1/2" then DRAW
    else if myColor == WHITE then (if boardResult == "1-0" then WIN else LOSS)
    else (if boardResult == "0-1" then WIN else LOSS)
  }

  /** The result string of a game won by `c`. */
  function WinString(c: Color): string
  {
    if c == WHITE then "1-0" else "0-1"
  }

  /** A decisive game is a win for one side and a loss for the other. */
  lemma DecisiveResultIsZeroSum(boardResult: string, c: Color)
    requires boardResult == "1-0" || boardResult == "0-1"
    ensures ResultFor(boardResult, c) != DRAW
    ensures ResultFor(boardResult, c) == WIN <==> ResultFor(boardResult, Opposite(c)) == LOSS
  {
  }

  // ---------------------------------------------------------------------
  // The AI level
  // ---------------------------------------------------------------------

  /** `min(8, max(1, ai_level))`. */
  function ClampLevel(level: int): (r: int)
    ensures 1 <= r <= 8
    ensures 1 <= level <= 8 ==> r == level
    ensures level < 1 ==> r == 1
    ensures level > 8 ==> r == 8
  {
    var atLeastOne := if level < 1 then 1 else level;
    if atLeastOne > 8 then 8 else atLeastOne
  }

  /** Clamping twice is clamping once. */
  lemma ClampIsIdempotent(level: int)
    ensures ClampLevel(ClampLevel(level)) == ClampLevel(level)
  {
  }

  /** `PlayAgainstAI`: a game against the server's AI at a level in [1, 8]. */
  class PlayAgainstAI {
    const aiLevel: int

    ghost predicate Valid()
    {
      1 <= aiLevel <= 8
    }

    constructor (aiLevel: int)
      ensures Valid() && this.aiLevel == ClampLevel(aiLevel)
    {
      this.aiLevel := ClampLevel(aiLevel);
    }

    /** `find_game`: challenge the AI at the clamped level, so the level
        posted to the server is always in [1, 8]. */
    method FindGame(client: GameClient, startLines: seq<Events.Line>, startBudget: nat, serverLines: seq<Events.Line>)
      returns (r: Result<GameData, Error>)
      requires Valid() && client.Valid()
      modifies client, client.streams.Values
      ensures client.Valid()
      ensures client.posted == old(client.posted) + [ChallengeAiPost(aiLevel, WHITE)]
      ensures 1 <= client.posted[|client.posted| - 1].level <= 8
      ensures match Poll(AwaitGameStart, startLines, 0, startBudget).outcome
        case Failure(e) =>
          r == Failure(e) && client.streams == old(client.streams) &&
          forall g | g in client.streams :: client.streams[g].pending == old(client.streams[g].pending)
        case Success(id) => client.Started(id, serverLines, r)
    {
      r := client.ChallengeAi(Some(aiLevel), startLines, startBudget, serverLines);
    }
  }

  // ---------------------------------------------------------------------
  // The online game loop
  // ---------------------------------------------------------------------

  /** What the loop does, in order: wait for the opponent, push the
      opponent's move, push our own move, send it, notify the agent. */
  datatype Action =
    | Wait
    | PushOpponent(move: Move)
    | PushOwn(move: Move)
    | Send(move: Move)
    | Notify(result: GameResult)

  /** How a session ends: with a result the agent was told, or with an
      exception raised out of the loop. */
  datatype End = Finished(result: GameResult) | Raised(error: Error)

  /** The rounds of the loop: the final board, the actions, and the
      exception that ended them (`None` when the board became game over). */
  datatype Run = Run(board: seq<Move>, trace: seq<Action>, error: Option<Error>)

  datatype Session = Session(board: seq<Move>, trace: seq<Action>, end: End)

  /** The `while 1` loop from `board`, the opponent's next reply being
      `replies[k]`; once the replies run out the wait raises `ending`. */
  function Rounds(board: seq<Move>, replies: seq<Move>, k: nat, ending: Error,
                  agent: seq<Move> -> Move, isOver: seq<Move> -> bool): Run
    decreases |replies| - k
  {
    if k >= |replies| then Run(board, [Wait], Some(ending))
    else
      var afterOpponent := board + [replies[k]];
      if isOver(afterOpponent) then Run(afterOpponent, [Wait, PushOpponent(replies[k])], None)
      else
        var move := agent(afterOpponent);
        var afterOwn := afterOpponent + [move];
        var round := [Wait, PushOpponent(replies[k]), PushOwn(move), Send(move)];
        if isOver(afterOwn) then Run(afterOwn, round, None)
        else
          var rest := Rounds(afterOwn, replies, k + 1, ending, agent, isOver);
          Run(rest.board, round + rest.trace, rest.error)
  }

  /** The run `r` preceded by the actions `done`. */
  function After(done: seq<Action>, r: Run): Run
  {
    Run(r.board, done + r.trace, r.error)
  }

  lemma AfterAppend(a: seq<Action>, b: seq<Action>, r: Run)
    ensures After(a, After(b, r)) == After(a + b, r)
  {
    assert a + (b + r.trace) == (a + b) + r.trace;
  }

  /** A round that ends on the opponent's move. */
  lemma RoundEndsOnOpponent(board: seq<Move>, replies: seq<Move>, k: nat, ending: Error,
                            agent: seq<Move> -> Move, isOver: seq<Move> -> bool)
    requires k < |replies| && isOver(board + [replies[k]])
    ensures Rounds(board, replies, k, ending, agent, isOver)
         == Run(board + [replies[k]], [Wait, PushOpponent(replies[k])], None)
  {
  }

  /** A round that ends on our own move. */
  lemma RoundEndsOnOwn(board: seq<Move>, replies: seq<Move>, k: nat, ending: Error,
                       agent: seq<Move> -> Move, isOver: seq<Move> -> bool)
    requires k < |replies| && !isOver(board + [replies[k]])
    requires isOver(board + [replies[k]] + [agent(board + [replies[k]])])
    ensures var m := agent(board + [replies[k]]);
      Rounds(board, replies, k, ending, agent, isOver)
      == Run(board + [replies[k]] + [m], [Wait, PushOpponent(replies[k]), PushOwn(m), Send(m)], None)
  {
  }

  /** A round after which the loop goes on. */
  lemma RoundContinues(board: seq<Move>, replies: seq<Move>, k: nat, ending: Error,
                       agent: seq<Move> -> Move, isOver: seq<Move> -> bool)
    requires k < |replies| && !isOver(board + [replies[k]])
    requires !isOver(board + [replies[k]] + [agent(board + [replies[k]])])
    ensures var m := agent(board + [replies[k]]);
      Rounds(board, replies, k, ending, agent, isOver)
      == After([Wait, PushOpponent(replies[k]), PushOwn(m), Send(m)],
               Rounds(board + [replies[k]] + [m], replies, k + 1, ending, agent, isOver))
  {
  }

  /** The opening move: White moves first, on the empty board. */
  function Opening(myColor: Color, agent: seq<Move> -> Move): seq<Move>
  {
    if myColor == WHITE then [agent([])] else []
  }

  function OpeningTrace(myColor: Color, agent: seq<Move> -> Move): seq<Action>
  {
    if myColor == WHITE then [PushOwn(agent([])), Send(agent([]))] else []
  }

  /** `PlayOnline._loop`: find the game, play the opening move if White, run
      the rounds, and on a game over tell the agent the result. */
  function PlaySession(found: Result<GameData, Error>, replies: seq<Move>, ending: Error,
                       agent: seq<Move> -> Move, isOver: seq<Move> -> bool,
                       boardResult: seq<Move> -> string): Session
  {
    match found
    case Failure(e) => Session([], [], Raised(e))
    case Success(game) =>
      var run := Rounds(Opening(game.myColor, agent), replies, 0, ending, agent, isOver);
      var played := OpeningTrace(game.myColor, agent) + run.trace;
      match run.error
      case Some(e) => Session(run.board, played, Raised(e))
      case None =>
        var result := ResultFor(boardResult(run.board), game.myColor);
        Session(run.board, played + [Notify(result)], Finished(result))
  }

  /** The loop invariant of PlayRounds: the rounds from `start` are the
      actions done so far followed by the rounds from the current board. */
  ghost predicate RoundsSoFar(start: seq<Move>, board: seq<Move>, trace: seq<Action>,
                              replies: seq<Move>, waits: nat, ending: Error,
                              agent: seq<Move> -> Move, isOver: seq<Move> -> bool)
  {
    Rounds(start, replies, 0, ending, agent, isOver)
    == After(trace, Rounds(board, replies, waits, ending, agent, isOver))
  }

  /** A wait that raises ends the rounds. */
  lemma StopOnRaise(start: seq<Move>, board: seq<Move>, trace: seq<Action>,
                    replies: seq<Move>, waits: nat, ending: Error,
                    agent: seq<Move> -> Move, isOver: seq<Move> -> bool)
    requires waits >= |replies| && RoundsSoFar(start, board, trace, replies, waits, ending, agent, isOver)
    ensures Rounds(start, replies, 0, ending, agent, isOver) == Run(board, trace + [Wait], Some(ending))
  {
  }

  /** An opponent's move that leaves the board over ends the rounds. */
  lemma StopAfterOpponent(start: seq<Move>, board: seq<Move>, trace: seq<Action>,
                          replies: seq<Move>, waits: nat, ending: Error,
                          agent: seq<Move> -> Move, isOver: seq<Move> -> bool)
    requires waits < |replies| && RoundsSoFar(start, board, trace, replies, waits, ending, agent, isOver)
    requires isOver(board + [replies[waits]])
    ensures Rounds(start, replies, 0, ending, agent, isOver)
         == Run(board + [replies[waits]], trace + [Wait, PushOpponent(replies[waits])], None)
  {
    RoundEndsOnOpponent(board, replies, waits, ending, agent, isOver);
  }

  /** Our own move that leaves the board over ends the rounds. */
  lemma StopAfterOwn(start: seq<Move>, board: seq<Move>, trace: seq<Action>,
                     replies: seq<Move>, waits: nat, ending: Error,
                     agent: seq<Move> -> Move, isOver: seq<Move> -> bool)
    requires waits < |replies| && RoundsSoFar(start, board, trace, replies, waits, ending, agent, isOver)
    requires !isOver(board + [replies[waits]])
    requires isOver(board + [replies[waits]] + [agent(board + [replies[waits]])])
    ensures var m := agent(board + [replies[waits]]);
      Rounds(start, replies, 0, ending, agent, isOver)
      == Run(board + [replies[waits]] + [m], trace + [Wait, PushOpponent(replies[waits]), PushOwn(m), Send(m)], None)
  {
    RoundEndsOnOwn(board, replies, waits, ending, agent, isOver);
  }

  /** A round that leaves the board not over keeps the invariant. */
  lemma GoOn(start: seq<Move>, board: seq<Move>, trace: seq<Action>,
             replies: seq<Move>, waits: nat, ending: Error,
             agent: seq<Move> -> Move, isOver: seq<Move> -> bool)
    requires waits < |replies| && RoundsSoFar(start, board, trace, replies, waits, ending, agent, isOver)
    requires !isOver(board + [replies[waits]])
    requires !isOver(board + [replies[waits]] + [agent(board + [replies[waits]])])
    ensures var x := replies[waits];
      var m := agent(board + [x]);
      RoundsSoFar(start, board + [x] + [m], trace + [Wait, PushOpponent(x), PushOwn(m), Send(m)],
                  replies, waits + 1, ending, agent, isOver)
  {
    var x := replies[waits];
    var m := agent(board + [x]);
    var round := [Wait, PushOpponent(x), PushOwn(m), Send(m)];
    RoundContinues(board, replies, waits, ending, agent, isOver);
    AfterAppend(trace, round, Rounds(board + [x] + [m], replies, waits + 1, ending, agent, isOver));
  }

  /** The `while 1` loop of `_loop`, step by step, from `start`: it
      computes the run that Rounds describes. */
  method PlayRounds(start: seq<Move>, replies: seq<Move>, ending: Error,
                    agent: seq<Move> -> Move, isOver: seq<Move> -> bool)
    returns (board: seq<Move>, trace: seq<Action>, error: Option<Error>)
    ensures Run(board, trace, error) == Rounds(start, replies, 0, ending, agent, isOver)
  {
    board, trace := start, [];
    var waits := 0;
    assert trace + Rounds(board, replies, waits, ending, agent, isOver).trace
        == Rounds(board, replies, waits, ending, agent, isOver).trace;
    while true
      invariant waits <= |replies|
      invariant RoundsSoFar(start, board, trace, replies, waits, ending, agent, isOver)
      decreases |replies| - waits
    {
      // wait_for_opponent_move: the opponent's next move, or the exception
      // that ends the wait
      if waits == |replies| {
        StopOnRaise(start, board, trace, replies, waits, ending, agent, isOver);
        return board, trace + [Wait], Some(ending);
      }
      var opponentMove := replies[waits];
      if isOver(board + [opponentMove]) {
        StopAfterOpponent(start, board, trace, replies, waits, ending, agent, isOver);
        return board + [opponentMove], trace + [Wait, PushOpponent(opponentMove)], None;
      }
      var move := agent(board + [opponentMove]);
      if isOver(board + [opponentMove] + [move]) {
        StopAfterOwn(start, board, trace, replies, waits, ending, agent, isOver);
        return board + [opponentMove] + [move], trace + [Wait, PushOpponent(opponentMove), PushOwn(move), Send(move)], None;
      }
      GoOn(start, board, trace, replies, waits, ending, agent, isOver);
      board := board + [opponentMove] + [move];
      trace := trace + [Wait, PushOpponent(opponentMove), PushOwn(move), Send(move)];
      waits := waits + 1;
    }
  }

  /** `PlayOnline._loop`, step by step: it computes the session that
      PlaySession describes. */
  method OnlineLoop(found: Result<GameData, Error>, replies: seq<Move>, ending: Error,
                    agent: seq<Move> -> Move, isOver: seq<Move> -> bool,
                    boardResult: seq<Move> -> string)
    returns (board: seq<Move>, trace: seq<Action>, end: End)
    ensures Session(board, trace, end) == PlaySession(found, replies, ending, agent, isOver, boardResult)
  {
    if found.Failure? {
      return [], [], Raised(found.error);
    }
    var game := found.value;
    board, trace := [], [];
    // If my colour is White, I make the first move
    if game.myColor == WHITE {
      var move := agent(board);
      board := board + [move];
      trace := trace + [PushOwn(move), Send(move)];
    }
    assert board == Opening(game.myColor, agent) && trace == OpeningTrace(game.myColor, agent);
    var rounds, error;
    board, rounds, error := PlayRounds(board, replies, ending, agent, isOver);
    trace := trace + rounds;
    if error.Some? {
      return board, trace, Raised(error.value);
    }
    var result := ResultFor(boardResult(board), game.myColor);
    trace := trace + [Notify(result)];
    end := Finished(result);
  }
}
