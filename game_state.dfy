/** The state of the dice game's turn engine as a value: the phase, the setup-screen
    configuration and the play state that the component keeps in React state. */
module GameState {

  /** The player-count buttons offer 1 to 4 players; names and reset scores have 4 slots. */
  const MaxPlayers: nat := 4
  /** The roll history shows at most this many entries. */
  const HistoryLimit: nat := 5
  /** A die shows a value in 1..Faces. */
  const Faces: nat := 6

  datatype Phase = Setup | Playing | Won

  datatype Option<T> = None | Some(value: T)

  /** One roll-history entry: the name of the player who rolled and the value rolled. */
  datatype Entry = Entry(player: string, value: nat)

  datatype Game = Game(
    phase: Phase,
    numPlayers: nat,
    playerNames: seq<string>,
    targetScore: nat,
    currentPlayer: nat,
    scores: seq<nat>,
    lastRoll: Option<nat>,
    rolling: bool,
    rollHistory: seq<Entry>,
    winner: Option<nat>)

  /** The configuration chosen on the setup screen is the same in both states. */
  predicate SameConfig(a: Game, b: Game)
  {
    a.numPlayers == b.numPlayers && a.playerNames == b.playerNames && a.targetScore == b.targetScore
  }

  /** The invariant every reachable state keeps. */
  predicate WellFormed(g: Game)
  {
    && 1 <= g.numPlayers <= MaxPlayers
    && |g.playerNames| == MaxPlayers
    && g.targetScore > 0
    && g.currentPlayer < |g.scores| <= MaxPlayers
    // the setup screen holds the 4-slot score array, a game one slot per player
    && (g.phase == Setup ==> |g.scores| == MaxPlayers)
    && (g.phase == Playing ==> |g.scores| == g.numPlayers)
    // a roll still in flight on the setup screen was begun before a reset, which seated player 0
    && (g.phase == Setup && g.rolling ==> g.currentPlayer == 0)
    // while a game is on, nobody has reached the target yet
    && (g.phase == Playing ==> forall i :: 0 <= i < |g.scores| ==> g.scores[i] < g.targetScore)
    // a winner exists exactly when the game is won; it is the player whose turn it was
    && (g.winner.Some? <==> g.phase == Won)
    && (g.phase == Won ==>
          g.winner.value == g.currentPlayer && g.scores[g.currentPlayer] >= g.targetScore && !g.rolling)
    && |g.rollHistory| <= HistoryLimit
    && (g.lastRoll.Some? ==> 1 <= g.lastRoll.value <= Faces)
  }

  function Min(a: nat, b: nat): nat
  {
    if a <= b then a else b
  }

  /** A score array of n zeros, as `Array(n).fill(0)` builds it. */
  function Zeros(n: nat): (r: seq<nat>)
    ensures |r| == n
    ensures forall i :: 0 <= i < n ==> r[i] == 0
  {
    seq(n, _ => 0)
  }

  /** The total of a sequence of scores or of rolls. */
  function Sum(s: seq<nat>): nat
  {
    if s == [] then 0 else s[0] + Sum(s[1..])
  }

  lemma {:induction false} SumZeros(n: nat)
    ensures Sum(Zeros(n)) == 0
  {
    if n > 0 {
      assert Zeros(n)[1..] == Zeros(n - 1);
      SumZeros(n - 1);
    }
  }

  /** Adding d to one slot adds d to the total. */
  lemma {:induction false} SumAddAt(s: seq<nat>, i: nat, d: nat)
    requires i < |s|
    ensures Sum(s[i := s[i] + d]) == Sum(s) + d
  {
    if i == 0 {
      assert s[i := s[i] + d][1..] == s[1..];
    } else {
      assert s[i := s[i] + d][1..] == s[1..][i - 1 := s[i] + d];
      SumAddAt(s[1..], i - 1, d);
    }
  }
}
