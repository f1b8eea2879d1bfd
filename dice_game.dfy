/** The DiceGame component's state fields and the handlers that overwrite them. Each
    handler is proved to move the state value as the matching TurnEngine function does. */
module DiceGameComponent {
  import opened GameState
  import opened RollHistory
  import opened TurnEngine

  class DiceGame {
    var gameState: Phase
    var numPlayers: nat
    var playerNames: seq<string>
    var targetScore: nat
    var currentPlayer: nat
    var scores: seq<nat>
    var lastRoll: Option<nat>
    var rolling: bool
    var rollHistory: seq<Entry>
    var winner: Option<nat>

    /** The fields as one state value. */
    function State(): Game
      reads this
    {
      Game(gameState, numPlayers, playerNames, targetScore, currentPlayer, scores,
           lastRoll, rolling, rollHistory, winner)
    }

    ghost predicate Valid()
      reads this
    {
      WellFormed(State())
    }

    /** The component's initial state. */
    constructor ()
      ensures Valid() && State() == Initial()
    {
      gameState := Setup;
      numPlayers := 2;
      playerNames := ["Player 1", "Player 2", "Player 3", "Player 4"];
      targetScore := 50;
      currentPlayer := 0;
      scores := [0, 0, 0, 0];
      lastRoll := None;
      rolling := false;
      rollHistory := [];
      winner := None;
    }

    /** A player-count button on the setup screen. */
    method SelectPlayers(n: nat)
      requires Valid() && gameState == Setup && 1 <= n <= MaxPlayers
      modifies this
      ensures Valid() && State() == old(State()).(numPlayers := n)
    {
      numPlayers := n;
    }

    /** Typing in the name box of player i on the setup screen; a blank name stays blank. */
    method EditName(i: nat, name: string)
      requires Valid() && gameState == Setup && i < numPlayers
      modifies this
      ensures Valid() && State() == old(State()).(playerNames := old(playerNames)[i := name])
    {
      playerNames := playerNames[i := name];
    }

    /** A target-score button on the setup screen (30, 50, 75 or 100; any positive target works). */
    method SelectTarget(t: nat)
      requires Valid() && gameState == Setup && t > 0
      modifies this
      ensures Valid() && State() == old(State()).(targetScore := t)
    {
      targetScore := t;
    }

    method StartGame()
      requires Valid()
      modifies this
      ensures Valid() && State() == Start(old(State()))
    {
      scores := Zeros(numPlayers);
      currentPlayer := 0;
      rollHistory := [];
      lastRoll := None;
      winner := None;
      gameState := Playing;
    }

    method ResetGame()
      requires Valid()
      modifies this
      ensures Valid() && State() == Reset(old(State()))
    {
      gameState := Setup;
      scores := [0, 0, 0, 0];
      currentPlayer := 0;
      rollHistory := [];
      lastRoll := None;
      winner := None;
    }

    /** The start of rollDice: ignored during a roll or outside a game, else sets the latch. */
    method BeginRoll() returns (started: bool)
      requires Valid()
      modifies this
      ensures Valid() && started == CanRoll(old(State()))
      ensures State() == Begin(old(State()))
    {
      if rolling || gameState != Playing {
        return false;
      }
      rolling := true;
      started := true;
    }

    /** The end of the roll animation, with the face value that was drawn. */
    method CompleteRoll(result: nat)
      requires Valid() && rolling && 1 <= result <= Faces
      modifies this
      ensures Valid() && State() == Resolve(old(State()), result)
    {
      lastRoll := Some(result);
      rolling := false;

      scores := scores[currentPlayer := scores[currentPlayer] + result];
      rollHistory := Push(rollHistory, Entry(playerNames[currentPlayer], result));

      if scores[currentPlayer] >= targetScore {
        winner := Some(currentPlayer);
        gameState := Won;
      } else {
        currentPlayer := NextPlayer(currentPlayer, numPlayers);
      }
    }
  }

  /** A press of Roll Dice followed by the end of its animation does what Turn says. */
  method PressRoll(game: DiceGame, result: nat)
    requires game.Valid() && 1 <= result <= Faces
    modifies game
    ensures game.Valid() && game.State() == Turn(old(game.State()), result)
  {
    var started := game.BeginRoll();
    if started {
      game.CompleteRoll(result);
    }
  }
}
