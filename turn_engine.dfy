/** The turn engine of the DiceGame component as functions on the state value:
    the initial state, Start Game, Reset, the roll guard and the roll resolution. */
module TurnEngine {
  import opened GameState
  import opened RollHistory

  /** The initial React state: setup screen, two players, target 50, four zero scores. */
  function Initial(): (g: Game)
    ensures WellFormed(g)
    ensures g.phase == Setup && g.numPlayers == 2 && g.targetScore == 50
    ensures g.playerNames == ["Player 1", "Player 2", "Player 3", "Player 4"]
    ensures g.scores == Zeros(MaxPlayers) && g.currentPlayer == 0 && !g.rolling
    ensures g.rollHistory == [] && g.lastRoll == None && g.winner == None
  {
    Game(Setup, 2, ["Player 1", "Player 2", "Player 3", "Player 4"], 50,
         0, [0, 0, 0, 0], None, false, [], None)
  }

  /** Start Game: a fresh game with one zero score per configured player. */
  function Start(g: Game): (r: Game)
    requires WellFormed(g)
    ensures WellFormed(r)
    ensures r.phase == Playing && r.currentPlayer == 0
    ensures |r.scores| == g.numPlayers && forall i :: 0 <= i < |r.scores| ==> r.scores[i] == 0
    ensures r.rollHistory == [] && r.lastRoll == None && r.winner == None
    // the configuration and the rolling latch are left as they were
    ensures SameConfig(r, g) && r.rolling == g.rolling
  {
    g.(phase := Playing, scores := Zeros(g.numPlayers), currentPlayer := 0,
       rollHistory := [], lastRoll := None, winner := None)
  }

  /** Reset (End Game / Play Again): back to the setup screen from any phase. */
  function Reset(g: Game): (r: Game)
    requires WellFormed(g)
    ensures WellFormed(r)
    ensures r.phase == Setup && r.currentPlayer == 0
    // four zero scores, whatever the number of players
    ensures r.scores == Zeros(MaxPlayers)
    ensures r.rollHistory == [] && r.lastRoll == None && r.winner == None
    ensures SameConfig(r, g) && r.rolling == g.rolling
  {
    g.(phase := Setup, scores := Zeros(MaxPlayers), currentPlayer := 0,
       rollHistory := [], lastRoll := None, winner := None)
  }

  /** A roll may begin only during a game and while no other roll is in flight. */
  predicate CanRoll(g: Game)
  {
    !g.rolling && g.phase == Playing
  }

  /** The beginning of a roll: the guard, then the latch. */
  function Begin(g: Game): (r: Game)
    requires WellFormed(g)
    ensures WellFormed(r)
    // a blocked roll changes nothing
    ensures !CanRoll(g) ==> r == g
    // an accepted roll sets the latch and nothing else
    ensures CanRoll(g) ==> r.rolling && r.(rolling := false) == g
  {
    if CanRoll(g) then g.(rolling := true) else g
  }

  /** The player after seat c in rotation: `(currentPlayer + 1) % numPlayers` for a seat c < n,
      written as the wrap-around it computes (NextPlayerIsModular). */
  function NextPlayer(c: nat, n: nat): nat
    requires c < n
  {
    if c + 1 < n then c + 1 else 0
  }

  /** The next seat is always a seat, and it is the source's `(c + 1) % n`. */
  lemma NextPlayerIsModular(c: nat, n: nat)
    requires c < n
    ensures NextPlayer(c, n) < n
    ensures NextPlayer(c, n) == (c + 1) % n
  {
  }

  /** The end of a roll of value result: score, history, then either the win or the next turn. */
  function Resolve(g: Game, result: nat): (r: Game)
    requires WellFormed(g) && g.rolling && 1 <= result <= Faces
    ensures WellFormed(r)
    ensures r.lastRoll == Some(result) && !r.rolling
    // the roller gains result and every other score is unchanged
    ensures |r.scores| == |g.scores|
    ensures r.scores[g.currentPlayer] == g.scores[g.currentPlayer] + result
    ensures forall i :: 0 <= i < |g.scores| && i != g.currentPlayer ==> r.scores[i] == g.scores[i]
    ensures r.rollHistory == Push(g.rollHistory, Entry(g.playerNames[g.currentPlayer], result))
    ensures SameConfig(r, g)
    // reaching the target wins at once and keeps the turn where it is
    ensures r.scores[g.currentPlayer] >= g.targetScore ==>
              r.phase == Won && r.winner == Some(g.currentPlayer) && r.currentPlayer == g.currentPlayer
    // otherwise the turn passes to the next player in rotation
    ensures r.scores[g.currentPlayer] < g.targetScore ==>
              r.phase == g.phase && r.winner == g.winner &&
              r.currentPlayer == NextPlayer(g.currentPlayer, g.numPlayers)
  {
    var p := g.currentPlayer;
    var newScores := g.scores[p := g.scores[p] + result];
    var settled := g.(lastRoll := Some(result), rolling := false, scores := newScores,
                      rollHistory := Push(g.rollHistory, Entry(g.playerNames[p], result)));
    if newScores[p] >= g.targetScore then settled.(winner := Some(p), phase := Won)
    else settled.(currentPlayer := NextPlayer(p, g.numPlayers))
  }

  /** One press of Roll Dice whose animation runs to its end with the face result. */
  function Turn(g: Game, result: nat): (r: Game)
    requires WellFormed(g) && 1 <= result <= Faces
    ensures WellFormed(r)
    ensures !CanRoll(g) ==> r == g
  {
    if CanRoll(g) then Resolve(Begin(g), result) else g
  }

  predicate AreFaces(rolls: seq<nat>)
  {
    forall k :: 0 <= k < |rolls| ==> 1 <= rolls[k] <= Faces
  }

  /** Presses of Roll Dice, one per value of rolls, each completing before the next. */
  function Turns(g: Game, rolls: seq<nat>): (r: Game)
    requires WellFormed(g) && AreFaces(rolls)
    ensures WellFormed(r)
    decreases |rolls|
  {
    if rolls == [] then g else Turns(Turn(g, rolls[0]), rolls[1..])
  }

  lemma TurnsFirst(g: Game, r: nat, rest: seq<nat>)
    requires WellFormed(g) && 1 <= r <= Faces && AreFaces(rest)
    ensures AreFaces([r] + rest) && Turns(g, [r] + rest) == Turns(Turn(g, r), rest)
  {
    assert ([r] + rest)[1..] == rest;
  }

  /** The score total grows by exactly the value rolled. */
  lemma ResolveAddsRoll(g: Game, result: nat)
    requires WellFormed(g) && g.rolling && 1 <= result <= Faces
    ensures Sum(Resolve(g, result).scores) == Sum(g.scores) + result
  {
    assert Resolve(g, result).scores == g.scores[g.currentPlayer := g.scores[g.currentPlayer] + result];
    SumAddAt(g.scores, g.currentPlayer, result);
  }

  /** The roll that first reaches the target wins for the roller alone. */
  lemma FirstToTargetWins(g: Game, result: nat)
    requires WellFormed(g) && CanRoll(g) && 1 <= result <= Faces
    requires g.scores[g.currentPlayer] + result >= g.targetScore
    ensures Turn(g, result).phase == Won
    ensures Turn(g, result).winner == Some(g.currentPlayer)
    ensures Turn(g, result).currentPlayer == g.currentPlayer
    ensures forall i :: 0 <= i < |g.scores| && i != g.currentPlayer ==> Turn(g, result).scores[i] < g.targetScore
  {
  }

  /** Once won, no roll changes anything until Reset. */
  lemma {:induction false} WonIsFinal(g: Game, rolls: seq<nat>)
    requires WellFormed(g) && AreFaces(rolls) && g.phase == Won
    ensures Turns(g, rolls) == g
    decreases |rolls|
  {
    if rolls != [] {
      assert AreFaces(rolls[1..]);
      WonIsFinal(g, rolls[1..]);
    }
  }

  /** A run of presses while no roll can begin changes nothing. */
  lemma {:induction false} BlockedRun(g: Game, rolls: seq<nat>)
    requires WellFormed(g) && AreFaces(rolls) && !CanRoll(g)
    ensures Turns(g, rolls) == g
    decreases |rolls|
  {
    if rolls != [] {
      assert AreFaces(rolls[1..]);
      BlockedRun(g, rolls[1..]);
    }
  }

  /** The history entries a run of presses records: one per accepted roll, until a press
      is refused (after a win nothing more is recorded). */
  function Entries(g: Game, rolls: seq<nat>): (es: seq<Entry>)
    requires WellFormed(g) && AreFaces(rolls)
    ensures |es| <= |rolls|
    decreases |rolls|
  {
    if rolls == [] || !CanRoll(g) then []
    else [Entry(g.playerNames[g.currentPlayer], rolls[0])] + Entries(Turn(g, rolls[0]), rolls[1..])
  }

  /** The history after a run of presses is the old one with each accepted roll pushed in turn. */
  lemma {:induction false} TurnsHistory(g: Game, rolls: seq<nat>)
    requires WellFormed(g) && AreFaces(rolls)
    ensures Turns(g, rolls).rollHistory == Replay(g.rollHistory, Entries(g, rolls))
    decreases |rolls|
  {
    if rolls == [] {
    } else if !CanRoll(g) {
      BlockedRun(g, rolls);
    } else {
      var e := Entry(g.playerNames[g.currentPlayer], rolls[0]);
      var next := Turn(g, rolls[0]);
      assert AreFaces(rolls[1..]);
      assert next.rollHistory == Push(g.rollHistory, e);
      TurnsHistory(next, rolls[1..]);
      var es := Entries(g, rolls);
      assert es == [e] + Entries(next, rolls[1..]);
      assert es[0] == e && es[1..] == Entries(next, rolls[1..]);
    }
  }

  /** So the game's history after any run of presses holds the newest recorded rolls, newest
      first, cut to HistoryLimit: the oldest are evicted first. */
  lemma TurnsKeepNewest(g: Game, rolls: seq<nat>)
    requires WellFormed(g) && AreFaces(rolls)
    ensures Turns(g, rolls).rollHistory ==
              (NewestFirst(Entries(g, rolls)) + g.rollHistory)[..Min(|Entries(g, rolls)| + |g.rollHistory|, HistoryLimit)]
  {
    TurnsHistory(g, rolls);
    ReplayKeepsNewest(g.rollHistory, Entries(g, rolls));
  }

  /** The player k turns after c. */
  function Advance(c: nat, k: nat, n: nat): (r: nat)
    requires c < n
    ensures r < n
    decreases k
  {
    if k == 0 then c else Advance(NextPlayer(c, n), k - 1, n)
  }

  /** k turns after c, starting from a seat c < n, is seat (c + k) mod n. */
  lemma {:induction false} AdvanceIsModular(c: nat, k: nat, n: nat)
    requires 1 <= n <= MaxPlayers && c < n
    ensures Advance(c, k, n) == (c + k) % n
    decreases k
  {
    if k > 0 {
      AdvanceIsModular(NextPlayer(c, n), k - 1, n);
      if n == 1 {
      } else if n == 2 {
      } else if n == 3 {
      } else {
      }
    }
  }

  /** A roll that does not win keeps the game on, passes the turn and adds its value. */
  lemma PlayingTurn(g: Game, result: nat)
    requires WellFormed(g) && CanRoll(g) && 1 <= result <= Faces
    requires Turn(g, result).phase != Won
    ensures CanRoll(Turn(g, result)) && SameConfig(Turn(g, result), g)
    ensures Turn(g, result).currentPlayer == NextPlayer(g.currentPlayer, g.numPlayers)
    ensures Sum(Turn(g, result).scores) == Sum(g.scores) + result
    ensures |Turn(g, result).rollHistory| == Min(|g.rollHistory| + 1, HistoryLimit)
  {
    ResolveAddsRoll(Begin(g), result);
  }

  /** While nobody has won, the latch is clear, the configuration is kept and the turn
      has moved on once per roll. */
  lemma {:induction false} TurnsWhilePlaying(g: Game, rolls: seq<nat>)
    requires WellFormed(g) && AreFaces(rolls) && CanRoll(g)
    requires Turns(g, rolls).phase == Playing
    ensures !Turns(g, rolls).rolling && SameConfig(Turns(g, rolls), g)
    ensures Turns(g, rolls).currentPlayer == Advance(g.currentPlayer, |rolls|, g.numPlayers)
    decreases |rolls|
  {
    if rolls != [] {
      var rest := rolls[1..];
      assert AreFaces(rest);
      var next := Turn(g, rolls[0]);
      if next.phase == Won {
        WonIsFinal(next, rest);
        assert false;
      } else {
        PlayingTurn(g, rolls[0]);
        TurnsWhilePlaying(next, rest);
      }
    }
  }

  /** While nobody has won, the score total is the old total plus the sum of the rolls,
      and the history has grown by one entry per roll up to HistoryLimit. */
  lemma {:induction false} TotalWhilePlaying(g: Game, rolls: seq<nat>)
    requires WellFormed(g) && AreFaces(rolls) && CanRoll(g)
    requires Turns(g, rolls).phase == Playing
    ensures Sum(Turns(g, rolls).scores) == Sum(g.scores) + Sum(rolls)
    ensures |Turns(g, rolls).rollHistory| == Min(|g.rollHistory| + |rolls|, HistoryLimit)
    decreases |rolls|
  {
    if rolls != [] {
      var rest := rolls[1..];
      assert AreFaces(rest);
      var next := Turn(g, rolls[0]);
      if next.phase == Won {
        WonIsFinal(next, rest);
        assert false;
      } else {
        PlayingTurn(g, rolls[0]);
        TotalWhilePlaying(next, rest);
      }
    }
  }

  /** From a fresh start and before any win, the score total is the sum of the rolls and
      the turn has moved on once per roll from the first player. */
  lemma StartedTotal(g: Game, rolls: seq<nat>)
    requires WellFormed(g) && !g.rolling && AreFaces(rolls)
    requires Turns(Start(g), rolls).phase == Playing
    ensures Sum(Turns(Start(g), rolls).scores) == Sum(rolls)
    ensures Turns(Start(g), rolls).currentPlayer == Advance(0, |rolls|, g.numPlayers)
  {
    SumZeros(g.numPlayers);
    TurnsWhilePlaying(Start(g), rolls);
    TotalWhilePlaying(Start(g), rolls);
  }

  /** The game two players A and B start with the target set to 10. */
  function TwoPlayerGame(): (g: Game)
    ensures WellFormed(g) && g.phase == Playing && g.scores == [0, 0]
  {
    Start(Initial().(playerNames := ["A", "B", "Player 3", "Player 4"], targetScore := 10))
  }

  lemma TwoPlayerRollOne()
    ensures Turn(TwoPlayerGame(), 4) == TwoPlayerGame().(scores := [4, 0], currentPlayer := 1,
              lastRoll := Some(4), rollHistory := [Entry("A", 4)])
  {
  }

  lemma TwoPlayerRollTwo()
    ensures var g := TwoPlayerGame().(scores := [4, 0], currentPlayer := 1,
                                      lastRoll := Some(4), rollHistory := [Entry("A", 4)]);
            Turn(g, 3) == g.(scores := [4, 3], currentPlayer := 0, lastRoll := Some(3),
                             rollHistory := [Entry("B", 3), Entry("A", 4)])
  {
  }

  lemma TwoPlayerRollThree()
    ensures var g := TwoPlayerGame().(scores := [4, 3], currentPlayer := 0, lastRoll := Some(3),
                                      rollHistory := [Entry("B", 3), Entry("A", 4)]);
            Turn(g, 6) == g.(scores := [10, 3], phase := Won, winner := Some(0), lastRoll := Some(6),
                             rollHistory := [Entry("A", 6), Entry("B", 3), Entry("A", 4)])
  {
  }

  /** Two players A and B aiming at 10 roll 4, 3, 6, 2: A wins on the third roll with 10,
      and the fourth roll is never applied. */
  lemma TwoPlayerScenario()
    ensures var g := Turns(TwoPlayerGame(), [4, 3, 6, 2]);
            g.phase == Won && g.winner == Some(0) && g.currentPlayer == 0 && g.scores == [10, 3] &&
            g.rollHistory == [Entry("A", 6), Entry("B", 3), Entry("A", 4)]
  {
    var g0 := TwoPlayerGame();
    var g1 := g0.(scores := [4, 0], currentPlayer := 1, lastRoll := Some(4), rollHistory := [Entry("A", 4)]);
    var g2 := g0.(scores := [4, 3], currentPlayer := 0, lastRoll := Some(3),
                  rollHistory := [Entry("B", 3), Entry("A", 4)]);
    var g3 := g0.(scores := [10, 3], phase := Won, winner := Some(0), lastRoll := Some(6),
                  rollHistory := [Entry("A", 6), Entry("B", 3), Entry("A", 4)]);
    TwoPlayerRollOne();
    TwoPlayerRollTwo();
    TwoPlayerRollThree();
    WonIsFinal(g3, [2]);
    TurnsFirst(g2, 6, [2]);
    TurnsFirst(g1, 3, [6, 2]);
    TurnsFirst(g0, 4, [3, 6, 2]);
  }

  /** A single player aiming at 1 wins on the first roll, whatever it shows. */
  lemma SinglePlayerScenario(result: nat)
    requires 1 <= result <= Faces
    ensures var g := Turn(Start(Initial().(numPlayers := 1, targetScore := 1)), result);
            g.phase == Won && g.winner == Some(0) && g.scores == [result]
  {
  }
}
