/**
 * What the online game loop of chaionline/play.py does, read off the
 * actions it records: the opening move, the alternation of the two sides,
 * where the loop may stop, and the single notification of the result.
 */
module PlayTraces {

  import opened Wrappers
  import opened Enumerations
  import opened Exceptions
  import opened Client
  import opened Play

  // ---------------------------------------------------------------------
  // The board a trace builds
  // ---------------------------------------------------------------------

  /** The moves an action pushes onto the local board. */
  function PushedBy(a: Action): seq<Move>
  {
    match a
    case PushOpponent(m) => [m]
    case PushOwn(m) => [m]
    case _ => []
  }

  /** The moves a trace pushes onto the local board, in order. */
  function Pushed(t: seq<Action>): seq<Move>
  {
    if |t| == 0 then [] else PushedBy(t[0]) + Pushed(t[1..])
  }

  /** The opponent's moves in a trace, in the order they were received. */
  function OpponentMoves(t: seq<Action>): seq<Move>
  {
    if |t| == 0 then []
    else (if t[0].PushOpponent? then [t[0].move] else []) + OpponentMoves(t[1..])
  }

  /** The board is examined right after these actions: after the opponent's
      move is pushed, and after our own move is pushed and sent. */
  predicate IsCheck(a: Action)
  {
    a.PushOpponent? || a.Send?
  }

  lemma {:induction false} PushedAppend(a: seq<Action>, b: seq<Action>)
    ensures Pushed(a + b) == Pushed(a) + Pushed(b)
  {
    if |a| == 0 {
      assert a + b == b;
    } else {
      assert (a + b)[1..] == a[1..] + b;
      PushedAppend(a[1..], b);
    }
  }

  lemma {:induction false} OpponentMovesAppend(a: seq<Action>, b: seq<Action>)
    ensures OpponentMoves(a + b) == OpponentMoves(a) + OpponentMoves(b)
  {
    if |a| == 0 {
      assert a + b == b;
    } else {
      assert (a + b)[1..] == a[1..] + b;
      OpponentMovesAppend(a[1..], b);
    }
  }

  lemma PushedCons(a: Action, t: seq<Action>)
    ensures Pushed([a] + t) == PushedBy(a) + Pushed(t)
    ensures OpponentMoves([a] + t) == (if a.PushOpponent? then [a.move] else []) + OpponentMoves(t)
  {
    assert ([a] + t)[1..] == t;
  }

  /** A lone wait pushes nothing. */
  lemma WaitPushes()
    ensures Pushed([Wait]) == [] && OpponentMoves([Wait]) == []
  {
    PushedCons(Wait, []);
  }

  /** A round cut short by the opponent's move pushes that move. */
  lemma OpponentPushes(x: Move)
    ensures Pushed([Wait, PushOpponent(x)]) == [x] && OpponentMoves([Wait, PushOpponent(x)]) == [x]
  {
    PushedCons(PushOpponent(x), []);
    PushedCons(Wait, [PushOpponent(x)]);
  }

  /** A full round pushes the opponent's move and then ours. */
  lemma RoundPushes(x: Move, m: Move)
    ensures Pushed([Wait, PushOpponent(x), PushOwn(m), Send(m)]) == [x, m]
    ensures OpponentMoves([Wait, PushOpponent(x), PushOwn(m), Send(m)]) == [x]
  {
    PushedCons(Send(m), []);
    PushedCons(PushOwn(m), [Send(m)]);
    PushedCons(PushOpponent(x), [PushOwn(m), Send(m)]);
    PushedCons(Wait, [PushOpponent(x), PushOwn(m), Send(m)]);
  }

  /** Pushing a round's moves after `board` gives the board after the round. */
  lemma RoundBoard(board: seq<Move>, x: Move, m: Move, p: seq<Move>)
    ensures board + ([x, m] + p) == (board + [x] + [m]) + p
  {
  }

  // ---------------------------------------------------------------------
  // The rounds of the loop
  // ---------------------------------------------------------------------

  /** The board the rounds end on is the start board with the trace's
      pushes replayed onto it. */
  lemma {:induction false} RoundsBoard(board: seq<Move>, replies: seq<Move>, k: nat, ending: Error,
                                       agent: seq<Move> -> Move, isOver: seq<Move> -> bool)
    ensures var r := Rounds(board, replies, k, ending, agent, isOver);
      r.board == board + Pushed(r.trace)
    decreases |replies| - k
  {
    if k >= |replies| {
      WaitPushes();
    } else {
      var x := replies[k];
      var m := agent(board + [x]);
      if isOver(board + [x]) {
        RoundEndsOnOpponent(board, replies, k, ending, agent, isOver);
        OpponentPushes(x);
      } else if isOver(board + [x] + [m]) {
        RoundEndsOnOwn(board, replies, k, ending, agent, isOver);
        RoundPushes(x, m);
      } else {
        RoundContinues(board, replies, k, ending, agent, isOver);
        RoundsBoard(board + [x] + [m], replies, k + 1, ending, agent, isOver);
        BoardPrepend(board, x, m, Rounds(board + [x] + [m], replies, k + 1, ending, agent, isOver));
      }
    }
  }

  lemma BoardPrepend(board: seq<Move>, x: Move, m: Move, rest: Run)
    requires rest.board == board + [x] + [m] + Pushed(rest.trace)
    ensures var r := After([Wait, PushOpponent(x), PushOwn(m), Send(m)], rest);
      r.board == board + Pushed(r.trace)
  {
    RoundPushes(x, m);
    PushedAppend([Wait, PushOpponent(x), PushOwn(m), Send(m)], rest.trace);
    RoundBoard(board, x, m, Pushed(rest.trace));
  }

  /** The order of the actions in the rounds: each round begins with a
      wait; the opponent's move is pushed right after the wait that
      returned it; our own move comes right after the opponent's, and is
      sent right after it is pushed to the local board; we wait again only
      after sending; the agent is never told a result inside the loop. */
  predicate InOrder(t: seq<Action>)
  {
    && |t| > 0 && t[0] == Wait
    && Silent(t)
    && (forall i | 0 <= i < |t| && t[i].PushOpponent? :: i > 0 && t[i - 1] == Wait)
    && (forall i | 0 < i < |t| && t[i].Wait? :: t[i - 1].Send?)
    && (forall i | 0 <= i < |t| && t[i].PushOwn? ::
          i > 0 && t[i - 1].PushOpponent? && i + 1 < |t| && t[i + 1] == Send(t[i].move))
    && (forall i | 0 <= i < |t| && t[i].Send? :: i > 0 && t[i - 1] == PushOwn(t[i].move))
  }

  /** The agent is told no result. */
  predicate Silent(t: seq<Action>)
  {
    forall i | 0 <= i < |t| :: !t[i].Notify?
  }

  lemma SilentAppend(a: seq<Action>, b: seq<Action>)
    requires Silent(a) && Silent(b)
    ensures Silent(a + b)
  {
    assert forall i | |a| <= i < |a + b| :: (a + b)[i] == b[i - |a|];
  }

  lemma InOrderPrepend(x: Move, m: Move, rest: seq<Action>)
    requires InOrder(rest)
    ensures InOrder([Wait, PushOpponent(x), PushOwn(m), Send(m)] + rest)
  {
    var t := [Wait, PushOpponent(x), PushOwn(m), Send(m)] + rest;
    assert forall i | 4 <= i < |t| :: t[i] == rest[i - 4];
  }

  lemma {:induction false} RoundsInOrder(board: seq<Move>, replies: seq<Move>, k: nat, ending: Error,
                                         agent: seq<Move> -> Move, isOver: seq<Move> -> bool)
    ensures InOrder(Rounds(board, replies, k, ending, agent, isOver).trace)
    decreases |replies| - k
  {
    if k < |replies| {
      var x := replies[k];
      var m := agent(board + [x]);
      if isOver(board + [x]) {
        RoundEndsOnOpponent(board, replies, k, ending, agent, isOver);
      } else if isOver(board + [x] + [m]) {
        RoundEndsOnOwn(board, replies, k, ending, agent, isOver);
      } else {
        RoundContinues(board, replies, k, ending, agent, isOver);
        RoundsInOrder(board + [x] + [m], replies, k + 1, ending, agent, isOver);
        InOrderPrepend(x, m, Rounds(board + [x] + [m], replies, k + 1, ending, agent, isOver).trace);
      }
    }
  }

  /** The agent is asked for each of our moves on the board as it stands. */
  predicate AgentSeesBoard(board: seq<Move>, t: seq<Action>, agent: seq<Move> -> Move)
  {
    forall i | 0 <= i < |t| && t[i].PushOwn? :: t[i].move == agent(board + Pushed(t[..i]))
  }

  /** Every check of the board but the last found it not over. */
  predicate ChecksPassed(board: seq<Move>, t: seq<Action>, isOver: seq<Move> -> bool)
  {
    forall i | 0 <= i < |t| - 1 && IsCheck(t[i]) :: !isOver(board + Pushed(t[..i + 1]))
  }

  /** Where the loop may stop, and what it sees: the agent is always asked
      for a move on the board as it stands; every check before the last
      found the board not over; the loop ends either on a check that found
      the board over, or on a wait that raised. */
  predicate Checked(board: seq<Move>, r: Run, ending: Error,
                    agent: seq<Move> -> Move, isOver: seq<Move> -> bool)
  {
    var t := r.trace;
    && |t| > 0
    && AgentSeesBoard(board, t, agent)
    && ChecksPassed(board, t, isOver)
    && (r.error.None? ==> IsCheck(t[|t| - 1]) && isOver(r.board))
    && (r.error.Some? ==> r.error == Some(ending) && t[|t| - 1] == Wait)
  }

  lemma PrefixAfterRound(round: seq<Action>, rest: seq<Action>, i: nat)
    requires |round| <= i <= |round| + |rest|
    ensures (round + rest)[..i] == round + rest[..i - |round|]
  {
  }

  /** The prefixes of a round followed by more actions. */
  lemma RoundPrefixes(x: Move, m: Move, rest: seq<Action>)
    ensures var t := [Wait, PushOpponent(x), PushOwn(m), Send(m)] + rest;
      t[..2] == [Wait, PushOpponent(x)] && t[..4] == [Wait, PushOpponent(x), PushOwn(m), Send(m)]
  {
  }

  /** The board seen at a point after the first round is the one seen at
      the same point from the board after that round. */
  lemma BoardAfterRound(board: seq<Move>, x: Move, m: Move, rest: seq<Action>, i: nat)
    requires 4 <= i <= 4 + |rest|
    ensures board + Pushed(([Wait, PushOpponent(x), PushOwn(m), Send(m)] + rest)[..i])
         == board + [x] + [m] + Pushed(rest[..i - 4])
  {
    var round := [Wait, PushOpponent(x), PushOwn(m), Send(m)];
    RoundPushes(x, m);
    PrefixAfterRound(round, rest, i);
    PushedAppend(round, rest[..i - 4]);
    RoundBoard(board, x, m, Pushed(rest[..i - 4]));
  }

  lemma AgentSeesPrepend(board: seq<Move>, x: Move, m: Move, rest: seq<Action>, agent: seq<Move> -> Move)
    requires m == agent(board + [x]) && AgentSeesBoard(board + [x] + [m], rest, agent)
    ensures AgentSeesBoard(board, [Wait, PushOpponent(x), PushOwn(m), Send(m)] + rest, agent)
  {
    var t := [Wait, PushOpponent(x), PushOwn(m), Send(m)] + rest;
    OpponentPushes(x);
    RoundPrefixes(x, m, rest);
    forall i | 0 <= i < |t| && t[i].PushOwn?
      ensures t[i].move == agent(board + Pushed(t[..i]))
    {
      if i >= 4 {
        BoardAfterRound(board, x, m, rest, i);
        assert t[i] == rest[i - 4];
      }
    }
  }

  lemma ChecksPrepend(board: seq<Move>, x: Move, m: Move, rest: seq<Action>, isOver: seq<Move> -> bool)
    requires !isOver(board + [x]) && !isOver(board + [x] + [m]) && |rest| > 0
    requires ChecksPassed(board + [x] + [m], rest, isOver)
    ensures ChecksPassed(board, [Wait, PushOpponent(x), PushOwn(m), Send(m)] + rest, isOver)
  {
    var t := [Wait, PushOpponent(x), PushOwn(m), Send(m)] + rest;
    OpponentPushes(x);
    RoundPushes(x, m);
    RoundPrefixes(x, m, rest);
    forall i | 0 <= i < |t| - 1 && IsCheck(t[i])
      ensures !isOver(board + Pushed(t[..i + 1]))
    {
      assert board + [x, m] == board + [x] + [m];
      if i >= 4 {
        BoardAfterRound(board, x, m, rest, i + 1);
        assert t[i] == rest[i - 4];
      }
    }
  }

  lemma CheckedPrepend(board: seq<Move>, x: Move, m: Move, rest: Run, ending: Error,
                       agent: seq<Move> -> Move, isOver: seq<Move> -> bool)
    requires m == agent(board + [x]) && !isOver(board + [x]) && !isOver(board + [x] + [m])
    requires Checked(board + [x] + [m], rest, ending, agent, isOver)
    ensures Checked(board, After([Wait, PushOpponent(x), PushOwn(m), Send(m)], rest), ending, agent, isOver)
  {
    AgentSeesPrepend(board, x, m, rest.trace, agent);
    ChecksPrepend(board, x, m, rest.trace, isOver);
    var t := [Wait, PushOpponent(x), PushOwn(m), Send(m)] + rest.trace;
    assert t[|t| - 1] == rest.trace[|rest.trace| - 1];
  }

  /** The rounds end on a wait that raised. */
  lemma CheckedOnRaise(board: seq<Move>, ending: Error, agent: seq<Move> -> Move, isOver: seq<Move> -> bool)
    ensures Checked(board, Run(board, [Wait], Some(ending)), ending, agent, isOver)
  {
  }

  /** The rounds end on the opponent's move. */
  lemma CheckedOnOpponent(board: seq<Move>, x: Move, ending: Error, agent: seq<Move> -> Move, isOver: seq<Move> -> bool)
    requires isOver(board + [x])
    ensures Checked(board, Run(board + [x], [Wait, PushOpponent(x)], None), ending, agent, isOver)
  {
  }

  /** The rounds end on our own move. */
  lemma CheckedOnOwn(board: seq<Move>, x: Move, m: Move, ending: Error, agent: seq<Move> -> Move, isOver: seq<Move> -> bool)
    requires m == agent(board + [x]) && !isOver(board + [x]) && isOver(board + [x] + [m])
    ensures Checked(board, Run(board + [x] + [m], [Wait, PushOpponent(x), PushOwn(m), Send(m)], None), ending, agent, isOver)
  {
    var t := [Wait, PushOpponent(x), PushOwn(m), Send(m)];
    OpponentPushes(x);
    RoundPushes(x, m);
    assert t[..2] == [Wait, PushOpponent(x)];
  }

  lemma {:induction false} RoundsChecked(board: seq<Move>, replies: seq<Move>, k: nat, ending: Error,
                                         agent: seq<Move> -> Move, isOver: seq<Move> -> bool)
    ensures Checked(board, Rounds(board, replies, k, ending, agent, isOver), ending, agent, isOver)
    decreases |replies| - k
  {
    if k >= |replies| {
      CheckedOnRaise(board, ending, agent, isOver);
    } else {
      var x := replies[k];
      var m := agent(board + [x]);
      if isOver(board + [x]) {
        RoundEndsOnOpponent(board, replies, k, ending, agent, isOver);
        CheckedOnOpponent(board, x, ending, agent, isOver);
      } else if isOver(board + [x] + [m]) {
        RoundEndsOnOwn(board, replies, k, ending, agent, isOver);
        CheckedOnOwn(board, x, m, ending, agent, isOver);
      } else {
        RoundContinues(board, replies, k, ending, agent, isOver);
        RoundsChecked(board + [x] + [m], replies, k + 1, ending, agent, isOver);
        CheckedPrepend(board, x, m, Rounds(board + [x] + [m], replies, k + 1, ending, agent, isOver), ending, agent, isOver);
      }
    }
  }

  /** The opponent's moves in a run are the replies from `k` on, in order,
      and the run raised only once every reply was used. */
  predicate RepliesFrom(replies: seq<Move>, k: nat, r: Run)
  {
    var n := |OpponentMoves(r.trace)|;
    && k + n <= |replies|
    && OpponentMoves(r.trace) == replies[k..k + n]
    && (r.error.Some? ==> k + n == |replies|)
  }

  lemma RepliesPrepend(replies: seq<Move>, k: nat, m: Move, rest: Run)
    requires k < |replies| && RepliesFrom(replies, k + 1, rest)
    ensures RepliesFrom(replies, k, After([Wait, PushOpponent(replies[k]), PushOwn(m), Send(m)], rest))
  {
    var x := replies[k];
    var round := [Wait, PushOpponent(x), PushOwn(m), Send(m)];
    RoundPushes(x, m);
    OpponentMovesAppend(round, rest.trace);
    var n := |OpponentMoves(rest.trace)|;
    assert OpponentMoves(round + rest.trace) == [x] + replies[k + 1..k + 1 + n];
    assert replies[k..k + 1 + n] == [x] + replies[k + 1..k + 1 + n];
  }

  lemma RepliesOnRaise(replies: seq<Move>, board: seq<Move>, ending: Error)
    ensures RepliesFrom(replies, |replies|, Run(board, [Wait], Some(ending)))
  {
    WaitPushes();
  }

  lemma RepliesOnOpponent(replies: seq<Move>, k: nat, board: seq<Move>)
    requires k < |replies|
    ensures RepliesFrom(replies, k, Run(board, [Wait, PushOpponent(replies[k])], None))
  {
    OpponentPushes(replies[k]);
    assert replies[k..k + 1] == [replies[k]];
  }

  lemma RepliesOnOwn(replies: seq<Move>, k: nat, board: seq<Move>, m: Move)
    requires k < |replies|
    ensures RepliesFrom(replies, k, Run(board, [Wait, PushOpponent(replies[k]), PushOwn(m), Send(m)], None))
  {
    RoundPushes(replies[k], m);
    assert replies[k..k + 1] == [replies[k]];
  }

  lemma {:induction false} RoundsReplies(board: seq<Move>, replies: seq<Move>, k: nat, ending: Error,
                                         agent: seq<Move> -> Move, isOver: seq<Move> -> bool)
    requires k <= |replies|
    ensures RepliesFrom(replies, k, Rounds(board, replies, k, ending, agent, isOver))
    decreases |replies| - k
  {
    if k == |replies| {
      RepliesOnRaise(replies, board, ending);
    } else {
      var x := replies[k];
      var m := agent(board + [x]);
      if isOver(board + [x]) {
        RoundEndsOnOpponent(board, replies, k, ending, agent, isOver);
        RepliesOnOpponent(replies, k, board + [x]);
      } else if isOver(board + [x] + [m]) {
        RoundEndsOnOwn(board, replies, k, ending, agent, isOver);
        RepliesOnOwn(replies, k, board + [x] + [m], m);
      } else {
        RoundContinues(board, replies, k, ending, agent, isOver);
        RoundsReplies(board + [x] + [m], replies, k + 1, ending, agent, isOver);
        RepliesPrepend(replies, k, m, Rounds(board + [x] + [m], replies, k + 1, ending, agent, isOver));
      }
    }
  }

  // ---------------------------------------------------------------------
  // The whole session
  // ---------------------------------------------------------------------

  /** The opening trace pushes the opening board and no opponent move. */
  lemma OpeningPushes(c: Color, agent: seq<Move> -> Move)
    ensures Pushed(OpeningTrace(c, agent)) == Opening(c, agent)
    ensures OpponentMoves(OpeningTrace(c, agent)) == []
  {
    var first := agent([]);
    if c == WHITE {
      PushedCons(Send(first), []);
      PushedCons(PushOwn(first), [Send(first)]);
      assert OpeningTrace(c, agent) == [PushOwn(first), Send(first)] && Opening(c, agent) == [first];
    } else {
      assert OpeningTrace(c, agent) == [] && Opening(c, agent) == [];
    }
  }

  /** How the rounds end: the agent is told nothing; the loop leaves
      without an exception only on a board that is over; an exception is
      the one that ended the wait, raised once every reply was used. */
  lemma RoundsEnd(board: seq<Move>, replies: seq<Move>, k: nat, ending: Error,
                  agent: seq<Move> -> Move, isOver: seq<Move> -> bool)
    requires k <= |replies|
    ensures var r := Rounds(board, replies, k, ending, agent, isOver);
      && Silent(r.trace)
      && (r.error.None? ==> isOver(r.board))
      && (r.error.Some? ==> r.error == Some(ending) && OpponentMoves(r.trace) == replies[k..])
  {
    RoundsInOrder(board, replies, k, ending, agent, isOver);
    RoundsChecked(board, replies, k, ending, agent, isOver);
    RoundsReplies(board, replies, k, ending, agent, isOver);
  }

  /** The opening: as White exactly one move, the agent's move on the
      empty board, is pushed and sent before the first wait; as Black the
      session begins with the wait. */
  lemma SessionOpening(found: Result<GameData, Error>, replies: seq<Move>, ending: Error,
                       agent: seq<Move> -> Move, isOver: seq<Move> -> bool,
                       boardResult: seq<Move> -> string)
    requires found.Success?
    ensures var s := PlaySession(found, replies, ending, agent, isOver, boardResult);
      && (found.value.myColor == WHITE ==>
            |s.trace| >= 3 && s.trace[..3] == [PushOwn(agent([])), Send(agent([])), Wait])
      && (found.value.myColor == BLACK ==> |s.trace| >= 1 && s.trace[0] == Wait)
  {
    RoundsInOrder(Opening(found.value.myColor, agent), replies, 0, ending, agent, isOver);
  }

  /** The board at the end of the session is the replay of every push in
      its trace, the opening move included. */
  lemma SessionBoard(found: Result<GameData, Error>, replies: seq<Move>, ending: Error,
                     agent: seq<Move> -> Move, isOver: seq<Move> -> bool,
                     boardResult: seq<Move> -> string)
    ensures var s := PlaySession(found, replies, ending, agent, isOver, boardResult);
      s.board == Pushed(s.trace)
  {
    if found.Success? {
      var c := found.value.myColor;
      var start := Opening(c, agent);
      var run := Rounds(start, replies, 0, ending, agent, isOver);
      RoundsBoard(start, replies, 0, ending, agent, isOver);
      OpeningPushes(c, agent);
      PushedAppend(OpeningTrace(c, agent), run.trace);
      if run.error.None? {
        var result := ResultFor(boardResult(run.board), c);
        PushedAppend(OpeningTrace(c, agent) + run.trace, [Notify(result)]);
        PushedCons(Notify(result), []);
      }
    }
  }

  /** How the session ends: a result is notified exactly once, as the last
      action, only when the board is over, and it is the result of the
      board for my colour; a session that raises notifies nothing, and
      raises either the error of finding the game or, once the opponent's
      every reply has been received, the one that ended the wait. */
  lemma SessionEnd(found: Result<GameData, Error>, replies: seq<Move>, ending: Error,
                   agent: seq<Move> -> Move, isOver: seq<Move> -> bool,
                   boardResult: seq<Move> -> string)
    ensures var s := PlaySession(found, replies, ending, agent, isOver, boardResult);
      && (s.end.Finished? ==>
            && found.Success?
            && isOver(s.board)
            && s.end.result == ResultFor(boardResult(s.board), found.value.myColor)
            && |s.trace| > 0 && s.trace[|s.trace| - 1] == Notify(s.end.result)
            && Silent(s.trace[..|s.trace| - 1]))
      && (s.end.Raised? ==>
            && Silent(s.trace)
            && (found.Failure? ==> s.end.error == found.error)
            && (found.Success? ==> s.end.error == ending && OpponentMoves(s.trace) == replies))
  {
    if found.Success? {
      var c := found.value.myColor;
      var start := Opening(c, agent);
      var opening := OpeningTrace(c, agent);
      var run := Rounds(start, replies, 0, ending, agent, isOver);
      RoundsEnd(start, replies, 0, ending, agent, isOver);
      OpeningPushes(c, agent);
      SilentAppend(opening, run.trace);
      OpponentMovesAppend(opening, run.trace);
      var played := opening + run.trace;
      if run.error.None? {
        var done := played + [Notify(ResultFor(boardResult(run.board), c))];
        assert done[..|done| - 1] == played;
      } else {
        assert replies[0..] == replies;
      }
    }
  }

  /** The agent sees the board as it stands after the opening too. */
  lemma AgentSeesAfterOpening(c: Color, t: seq<Action>, agent: seq<Move> -> Move)
    requires AgentSeesBoard(Opening(c, agent), t, agent)
    ensures AgentSeesBoard([], OpeningTrace(c, agent) + t, agent)
  {
    var opening := OpeningTrace(c, agent);
    var played := opening + t;
    OpeningPushes(c, agent);
    if c == BLACK {
      assert opening == [] && played == t;
    } else {
      forall i | 0 <= i < |played| && played[i].PushOwn?
        ensures played[i].move == agent([] + Pushed(played[..i]))
      {
        if i < 2 {
          assert opening == [PushOwn(agent([])), Send(agent([]))] && played[i] == opening[i];
          assert i == 0 && played[..i] == [];
        } else {
          PrefixAfterRound(opening, t, i);
          PushedAppend(opening, t[..i - 2]);
          assert played[i] == t[i - 2];
          assert t[i - 2].move == agent(Opening(c, agent) + Pushed(t[..i - 2]));
          assert [] + Pushed(played[..i]) == Opening(c, agent) + Pushed(t[..i - 2]);
        }
      }
    }
  }

  /** Notifying the agent asks it for no move. */
  lemma AgentSeesNotify(t: seq<Action>, result: GameResult, agent: seq<Move> -> Move)
    requires AgentSeesBoard([], t, agent)
    ensures AgentSeesBoard([], t + [Notify(result)], agent)
    ensures OpponentMoves(t + [Notify(result)]) == OpponentMoves(t)
  {
    var done := t + [Notify(result)];
    PushedCons(Notify(result), []);
    OpponentMovesAppend(t, [Notify(result)]);
    assert done[..|t|] == t;
    assert forall i | 0 <= i < |t| :: done[..i] == t[..i];
  }

  /** Over the whole session the agent is asked for each move on the board
      as it stands, and the opponent's moves are the replies, in order. */
  lemma SessionMoves(found: Result<GameData, Error>, replies: seq<Move>, ending: Error,
                     agent: seq<Move> -> Move, isOver: seq<Move> -> bool,
                     boardResult: seq<Move> -> string)
    ensures var s := PlaySession(found, replies, ending, agent, isOver, boardResult);
      && AgentSeesBoard([], s.trace, agent)
      && |OpponentMoves(s.trace)| <= |replies|
      && OpponentMoves(s.trace) == replies[..|OpponentMoves(s.trace)|]
  {
    if found.Success? {
      var c := found.value.myColor;
      var start := Opening(c, agent);
      var opening := OpeningTrace(c, agent);
      var run := Rounds(start, replies, 0, ending, agent, isOver);
      RoundsChecked(start, replies, 0, ending, agent, isOver);
      RoundsReplies(start, replies, 0, ending, agent, isOver);
      AgentSeesAfterOpening(c, run.trace, agent);
      OpeningPushes(c, agent);
      OpponentMovesAppend(opening, run.trace);
      if run.error.None? {
        AgentSeesNotify(opening + run.trace, ResultFor(boardResult(run.board), c), agent);
      }
    }
  }
}
