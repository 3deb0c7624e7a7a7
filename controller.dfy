/**
 * The page controller (js/main.js): it sets up a game, ends turns, and
 * plays the turn of an AI player with the heuristic AIPlayer. The map
 * generator's output and the shuffle are parameters, and so are the random
 * choices of each AI move. The controller's `endTurn` hands over to
 * `makeAIMove` when the next player is an AI; here EndTurn reports that
 * with its result instead of calling MakeAIMove itself.
 */
module Controller {
  import opened Board
  import opened Rules
  import opened Strategy

  /** The number of attack-phase moves makeAIMove allows per turn. */
  const MaxAttacks: nat := 3

  /** The random choices of one AIPlayer move: the easy-mode picks and the rolls. */
  datatype Move = Move(pick: nat, pickSource: nat, pickTarget: nat, dice: Dice)

  ghost predicate ValidMoves(moves: seq<Move>)
  {
    forall k :: 0 <= k < |moves| ==> ValidDice(moves[k].dice)
  }

  /** The board after one AIPlayer move in the given phase. */
  function MoveEffect(difficulty: Difficulty, ts: seq<Territory>, cur: PlayerId, size: SizeOf, phase: Phase, m: Move): (r: seq<Territory>)
    requires WellFormed(ts)
    ensures SameBoard(ts, r) && WellFormed(r)
  {
    var r := if phase == Reinforcement then Reinforced(difficulty, ts, cur, size, m.pick, ReinforcementPool(CountOwned(ts, cur)))
             else Attacked(difficulty, ts, cur, size, m.pickSource, m.pickTarget, m.dice);
    SameBoardWellFormed(ts, r);
    r
  }

  /** The end of makeAIMove's attack loop: the board, the moves made, and whether a winner stopped it. */
  datatype AIRun = AIRun(board: seq<Territory>, moves: nat, won: bool)

  /**
   * The attack loop of makeAIMove with one set of choices per remaining
   * move: attack, then stop if the board has a winner.
   */
  function AttackMoves(difficulty: Difficulty, ts: seq<Territory>, cur: PlayerId, ps: seq<Player>, size: SizeOf,
                       moves: seq<Move>): (r: AIRun)
    requires WellFormed(ts)
    ensures SameBoard(ts, r.board) && r.moves <= |moves|
    decreases |moves|
  {
    if |moves| == 0 then AIRun(ts, 0, false)
    else
      var b := MoveEffect(difficulty, ts, cur, size, Attack, moves[0]);
      if Winner(b, ps).Some? then AIRun(b, 1, true)
      else
        var r := AttackMoves(difficulty, b, cur, ps, size, moves[1..]);
        AIRun(r.board, r.moves + 1, r.won)
  }

  /** A run that follows `n` earlier moves. */
  function ShiftedRun(r: AIRun, n: nat): AIRun
  {
    r.(moves := r.moves + n)
  }

  /** One step of the attack loop: attack, then stop at a winner or go on. */
  lemma AttackMovesStep(difficulty: Difficulty, ts: seq<Territory>, cur: PlayerId, ps: seq<Player>, size: SizeOf,
                        moves: seq<Move>)
    requires WellFormed(ts)
    ensures |moves| == 0 ==> AttackMoves(difficulty, ts, cur, ps, size, moves) == AIRun(ts, 0, false)
    ensures |moves| > 0 ==>
      var b := MoveEffect(difficulty, ts, cur, size, Attack, moves[0]);
      AttackMoves(difficulty, ts, cur, ps, size, moves) ==
        if Winner(b, ps).Some? then AIRun(b, 1, true)
        else ShiftedRun(AttackMoves(difficulty, b, cur, ps, size, moves[1..]), 1)
  {
  }

  /**
   * The loop makes every allowed move unless a winner appears, and it stops
   * early only right after the move that produced one.
   */
  lemma {:induction false} AttackMovesStop(difficulty: Difficulty, ts: seq<Territory>, cur: PlayerId, ps: seq<Player>,
                                           size: SizeOf, moves: seq<Move>)
    requires WellFormed(ts)
    ensures var r := AttackMoves(difficulty, ts, cur, ps, size, moves);
      WellFormed(r.board) &&
      (r.won ==> r.moves >= 1 && Winner(r.board, ps).Some?) &&
      (!r.won ==> r.moves == |moves|)
    decreases |moves|
  {
    AttackMovesStep(difficulty, ts, cur, ps, size, moves);
    if |moves| > 0 {
      var b := MoveEffect(difficulty, ts, cur, size, Attack, moves[0]);
      if Winner(b, ps).None? {
        AttackMovesStop(difficulty, b, cur, ps, size, moves[1..]);
      }
    }
  }

  /** Every combat of the loop is legal, so the army floor holds throughout. */
  lemma {:induction false} AttackMovesKeepArmyFloor(difficulty: Difficulty, ts: seq<Territory>, cur: PlayerId,
                                                    ps: seq<Player>, size: SizeOf, moves: seq<Move>)
    requires WellFormed(ts) && ArmyFloor(ts) && ValidMoves(moves)
    ensures ArmyFloor(AttackMoves(difficulty, ts, cur, ps, size, moves).board)
    decreases |moves|
  {
    AttackMovesStep(difficulty, ts, cur, ps, size, moves);
    if |moves| > 0 {
      var m := moves[0];
      assert ValidDice(m.dice);
      AttackKeepsBoard(difficulty, ts, cur, size, m.pickSource, m.pickTarget, m.dice);
      var b := MoveEffect(difficulty, ts, cur, size, Attack, m);
      assert ArmyFloor(b);
      if Winner(b, ps).None? {
        assert forall k :: 0 <= k < |moves| - 1 ==> moves[1..][k] == moves[k + 1];
        AttackMovesKeepArmyFloor(difficulty, b, cur, ps, size, moves[1..]);
      }
    }
  }

  /** The ids of the AI players among the first `k` players. */
  ghost function AIIds(ps: seq<Player>, k: nat): set<PlayerId>
    requires k <= |ps|
  {
    set q | 0 <= q < k && ps[q].isAI :: ps[q].id
  }

  /** What makeAIMove ends with. */
  datatype AITurn =
    | NoAIPlayer                           // the current player has no AIPlayer: nothing happens
    | GameOver(moves: nat, winner: Player) // a winner appeared after this many attack-phase moves
    | TurnEnded(nextIsAI: bool)            // the turn passed; the controller moves again if the next player is an AI

  class GameController {
    var game: Game
    var aiPlayers: map<PlayerId, AIPlayer>

    constructor(game: Game)
      ensures this.game == game && aiPlayers == map[]
    {
      this.game := game;
      aiPlayers := map[];
    }

    /**
     * End the current phase: the attack phase passes the turn and reports
     * whether the new current player is an AI; the reinforcement phase
     * opens the attack phase.
     */
    method EndTurn() returns (aiNext: bool)
      requires game.HasCurrentPlayer()
      modifies game`currentPlayerIndex, game`currentPhase, game`selectedTerritory, game`attackSource,
               game`availableReinforcements
      ensures game.HasCurrentPlayer()
      ensures old(game.currentPhase) == Attack ==>
        game.currentPlayerIndex == NextIndex(old(game.currentPlayerIndex), |game.players|) &&
        game.currentPhase == Reinforcement && game.attackSource == None && game.selectedTerritory == None &&
        game.availableReinforcements == ReinforcementPool(CountOwned(game.territories, game.CurrentPlayer().id)) &&
        aiNext == game.CurrentPlayer().isAI
      ensures old(game.currentPhase) == Reinforcement ==>
        game.currentPhase == Attack && !aiNext &&
        unchanged(game`currentPlayerIndex, game`selectedTerritory, game`attackSource, game`availableReinforcements)
    {
      aiNext := false;
      if game.currentPhase == Attack {
        game.NextTurn();
        aiNext := game.CurrentPlayer().isAI;
      } else {
        game.currentPhase := Attack;
      }
    }

    /**
     * Play an AI turn: one move in the current phase, the attack phase,
     * then up to MaxAttacks attack moves, stopping at a winner; without a
     * winner the turn ends through EndTurn.
     */
    method MakeAIMove(size: SizeOf, first: Move, moves: seq<Move>) returns (outcome: AITurn)
      requires game.HasCurrentPlayer() && WellFormed(game.territories)
      requires ValidDice(first.dice) && |moves| == MaxAttacks && ValidMoves(moves)
      modifies game`territories, game`availableReinforcements, game`currentPlayerIndex, game`currentPhase,
               game`selectedTerritory, game`attackSource
      ensures game.HasCurrentPlayer()
      ensures old(game.CurrentPlayer().id) !in aiPlayers ==> outcome == NoAIPlayer && unchanged(game)
      ensures old(game.CurrentPlayer().id) in aiPlayers ==>
        var cur := old(game.CurrentPlayer().id);
        var d := aiPlayers[cur].difficulty;
        var start := MoveEffect(d, old(game.territories), cur, size, old(game.currentPhase), first);
        var run := AttackMoves(d, start, cur, game.players, size, moves);
        game.territories == run.board &&
        (run.won ==> outcome.GameOver? && outcome.moves == run.moves && Winner(run.board, game.players) == Some(outcome.winner) &&
                     game.currentPlayerIndex == old(game.currentPlayerIndex) && game.currentPhase == Attack) &&
        (!run.won ==> outcome == TurnEnded(game.CurrentPlayer().isAI) &&
                      game.currentPlayerIndex == NextIndex(old(game.currentPlayerIndex), |game.players|) &&
                      game.currentPhase == Reinforcement)
      ensures old(game.CurrentPlayer().id) in aiPlayers ==>
        var cur := old(game.CurrentPlayer().id);
        var d := aiPlayers[cur].difficulty;
        var start := MoveEffect(d, old(game.territories), cur, size, old(game.currentPhase), first);
        var run := AttackMoves(d, start, cur, game.players, size, moves);
        (run.won ==>
           unchanged(game`selectedTerritory, game`attackSource) &&
           game.availableReinforcements ==
             if old(game.currentPhase) == Reinforcement then ReinforcementPool(CountOwned(old(game.territories), cur))
             else old(game.availableReinforcements)) &&
        (!run.won ==> game.selectedTerritory == None && game.attackSource == None &&
                      game.availableReinforcements == ReinforcementPool(CountOwned(game.territories, game.CurrentPlayer().id)))
    {
      hide AttackMoves, Winner, ReinforcementPool, CountOwned, Reinforced, Attacked;
      var cur := game.CurrentPlayer().id;
      if cur !in aiPlayers {
        return NoAIPlayer;
      }
      var aiPlayer := aiPlayers[cur];
      aiPlayer.MakeMove(game, size, first.pick, first.pickSource, first.pickTarget, first.dice);
      game.currentPhase := Attack;
      outcome := AttackPhase(aiPlayer, size, moves);
    }

    /** The attack loop of an AI turn, from the attack phase on. */
    method AttackPhase(aiPlayer: AIPlayer, size: SizeOf, moves: seq<Move>) returns (outcome: AITurn)
      requires game.HasCurrentPlayer() && WellFormed(game.territories) && game.currentPhase == Attack
      requires |moves| == MaxAttacks && ValidMoves(moves)
      modifies game`territories, game`availableReinforcements, game`currentPlayerIndex, game`currentPhase,
               game`selectedTerritory, game`attackSource
      ensures game.HasCurrentPlayer()
      ensures var run := AttackMoves(aiPlayer.difficulty, old(game.territories), old(game.CurrentPlayer().id),
                                     game.players, size, moves);
        game.territories == run.board &&
        (run.won ==> outcome.GameOver? && outcome.moves == run.moves && Winner(run.board, game.players) == Some(outcome.winner) &&
                     game.currentPlayerIndex == old(game.currentPlayerIndex) && game.currentPhase == Attack) &&
        (!run.won ==> outcome == TurnEnded(game.CurrentPlayer().isAI) &&
                      game.currentPlayerIndex == NextIndex(old(game.currentPlayerIndex), |game.players|) &&
                      game.currentPhase == Reinforcement)
      ensures var run := AttackMoves(aiPlayer.difficulty, old(game.territories), old(game.CurrentPlayer().id),
                                     game.players, size, moves);
        (run.won ==> unchanged(game`selectedTerritory, game`attackSource, game`availableReinforcements)) &&
        (!run.won ==> game.selectedTerritory == None && game.attackSource == None &&
                      game.availableReinforcements == ReinforcementPool(CountOwned(game.territories, game.CurrentPlayer().id)))
    {
      hide AttackMoves, MoveEffect, Winner, ReinforcementPool, CountOwned;
      var cur := game.CurrentPlayer().id;
      ghost var d := aiPlayer.difficulty;
      ghost var ps := game.players;
      ghost var total := AttackMoves(d, game.territories, cur, ps, size, moves);
      var attackCount := 0;
      while true
        invariant attackCount <= |moves| && game.players == ps
        invariant game.HasCurrentPlayer() && game.CurrentPlayer().id == cur && WellFormed(game.territories)
        invariant game.currentPlayerIndex == old(game.currentPlayerIndex) && game.currentPhase == Attack
        invariant unchanged(game`selectedTerritory, game`attackSource, game`availableReinforcements)
        invariant total == ShiftedRun(AttackMoves(d, game.territories, cur, ps, size, moves[attackCount..]), attackCount)
        decreases |moves| - attackCount
      {
        ghost var rest := moves[attackCount..];
        ghost var before := game.territories;
        AttackMovesStep(d, before, cur, ps, size, rest);
        if attackCount >= MaxAttacks {
          var aiNext := EndTurn();
          return TurnEnded(aiNext);
        }
        assert rest[0] == moves[attackCount] && rest[1..] == moves[attackCount + 1..];
        var m := moves[attackCount];
        assert ValidDice(m.dice);
        var winner := AttackOnce(aiPlayer, size, m);
        if winner.Some? {
          return GameOver(attackCount + 1, winner.value);
        }
        attackCount := attackCount + 1;
      }
    }

    /** One attack-phase move of the AI player, then the win check. */
    method AttackOnce(aiPlayer: AIPlayer, size: SizeOf, m: Move) returns (winner: Option<Player>)
      requires game.HasCurrentPlayer() && WellFormed(game.territories) && game.currentPhase == Attack
      requires ValidDice(m.dice)
      modifies game`territories, game`availableReinforcements
      ensures game.territories == MoveEffect(aiPlayer.difficulty, old(game.territories), game.CurrentPlayer().id, size, Attack, m)
      ensures WellFormed(game.territories)
      ensures winner == Winner(game.territories, game.players)
      ensures game.availableReinforcements == old(game.availableReinforcements)
    {
      aiPlayer.MakeMove(game, size, m.pick, m.pickSource, m.pickTarget, m.dice);
      winner := game.CheckWinCondition();
    }

    /** Register a fresh balanced AIPlayer, with the player's difficulty, for every AI player. */
    method RegisterAIPlayers()
      requires game.SequentialPlayerIds()
      modifies this`aiPlayers
      ensures aiPlayers.Keys == old(aiPlayers).Keys + AIIds(game.players, |game.players|)
      ensures forall k :: 0 <= k < |game.players| && game.players[k].isAI ==>
        var id := game.players[k].id;
        fresh(aiPlayers[id]) &&
        aiPlayers[id].difficulty == game.players[k].aiDifficulty && aiPlayers[id].personality == Balanced
      ensures forall id :: id in old(aiPlayers) && id !in AIIds(game.players, |game.players|) ==>
        aiPlayers[id] == old(aiPlayers)[id]
    {
      for k := 0 to |game.players|
        invariant aiPlayers.Keys == old(aiPlayers).Keys + AIIds(game.players, k)
        invariant forall q :: 0 <= q < k && game.players[q].isAI ==>
          var id := game.players[q].id;
          fresh(aiPlayers[id]) &&
          aiPlayers[id].difficulty == game.players[q].aiDifficulty && aiPlayers[id].personality == Balanced
        invariant forall id :: id in old(aiPlayers) && id !in AIIds(game.players, k) ==>
          aiPlayers[id] == old(aiPlayers)[id]
      {
        var player := game.players[k];
        assert AIIds(game.players, k + 1) == AIIds(game.players, k) + (if player.isAI then {player.id} else {});
        if player.isAI {
          var ai := new AIPlayer(player.aiDifficulty, Balanced);
          aiPlayers := aiPlayers[player.id := ai];
        }
      }
    }

    /**
     * Set up a game: two players (a human and a medium AI), their AIPlayers,
     * the generated map stored in the game, and the partition along the
     * shuffled order.
     */
    method InitializeGame(generated: seq<Territory>, order: seq<int>)
      requires IdsAreIndices(generated) && IsPermutation(order, |generated|)
      modifies game`players, game`territories, this`aiPlayers
      ensures game.players == [Player(1, "#ff4444", false, Medium), Player(2, "#4444ff", true, Medium)]
      ensures game.territories == Partitioned(generated, order, SlotOwners(|order|, [1, 2]), |order|)
      ensures aiPlayers.Keys == old(aiPlayers).Keys + {2}
      ensures fresh(aiPlayers[2]) && aiPlayers[2].difficulty == Medium && aiPlayers[2].personality == Balanced
      ensures forall id :: id in old(aiPlayers) && id != 2 ==> aiPlayers[id] == old(aiPlayers)[id]
    {
      game.players := [];
      game.territories := generated;
      var human := game.AddPlayer("#ff4444", false, Medium);
      var ai := game.AddPlayer("#4444ff", true, Medium);
      RegisterAIPlayers();
      assert game.players == [human, ai] && !human.isAI && ai.isAI && ai.id == 2;
      assert AIIds(game.players, 2) == {2} by {
        assert forall q :: 0 <= q < 2 && game.players[q].isAI ==> q == 1;
        assert game.players[1].id in AIIds(game.players, 2);
      }
      assert PlayerIds(game.players) == [1, 2];
      game.Partition(order);
    }

    /**
     * The setup as written: the collection is emptied, but the generated map
     * is never stored into it, so every assignTerritory and setArmies of the
     * partition finds no territory and the game's board stays empty.
     */
    method InitializeGameAsWritten(generated: seq<Territory>, order: seq<int>)
      requires IsPermutation(order, |generated|)
      modifies game`players, game`territories, this`aiPlayers
      ensures game.players == [Player(1, "#ff4444", false, Medium), Player(2, "#4444ff", true, Medium)]
      ensures game.territories == []
      ensures aiPlayers.Keys == old(aiPlayers).Keys + {2}
      ensures fresh(aiPlayers[2]) && aiPlayers[2].difficulty == Medium && aiPlayers[2].personality == Balanced
      ensures forall id :: id in old(aiPlayers) && id != 2 ==> aiPlayers[id] == old(aiPlayers)[id]
    {
      game.players := [];
      game.territories := [];
      var human := game.AddPlayer("#ff4444", false, Medium);
      var ai := game.AddPlayer("#4444ff", true, Medium);
      RegisterAIPlayers();
      assert game.players == [human, ai] && !human.isAI && ai.isAI && ai.id == 2;
      assert AIIds(game.players, 2) == {2} by {
        assert forall q :: 0 <= q < 2 && game.players[q].isAI ==> q == 1;
        assert game.players[1].id in AIIds(game.players, 2);
      }
      var n, p := |order|, |game.players|;
      var pids := PlayerIds(game.players);
      var k := n / p;
      ghost var ps := game.players;
      ghost var registered := aiPlayers;
      for index := 0 to p
        invariant game.territories == [] && game.players == ps && aiPlayers == registered
        invariant aiPlayers[2].difficulty == Medium && aiPlayers[2].personality == Balanced
      {
        SliceOfPlayer(n, pids, index);
        var start := index * k;
        var end := if index == p - 1 then n else (index + 1) * k;
        for i := start to end
          invariant game.territories == [] && game.players == ps && aiPlayers == registered
          invariant aiPlayers[2].difficulty == Medium && aiPlayers[2].personality == Balanced
        {
          var territory := generated[order[i]];
          game.AssignTerritory(territory.id, game.players[index].id);
          game.SetArmies(territory.id, 2);
        }
      }
    }
  }

  /**
   * On a non-empty map the intended setup owns every territory, with 2
   * armies each, while the setup as written owns none and leaves no winner
   * and no owned territory for anyone.
   */
  lemma UnstoredMapOwnsNothing(generated: seq<Territory>, order: seq<int>, pid: PlayerId)
    requires IdsAreIndices(generated) && IsPermutation(order, |generated|) && |generated| > 0
    ensures var intended := Partitioned(generated, order, SlotOwners(|order|, [1, 2]), |order|);
      (forall m :: 0 <= m < |intended| ==> intended[m].owner.Some? && intended[m].armies == 2) &&
      CountOwned(intended, intended[0].owner.value) > 0
    ensures CountOwned([], pid) == 0 && Winner([], [Player(1, "#ff4444", false, Medium), Player(2, "#4444ff", true, Medium)]).None?
  {
    PartitionOwnsEveryTerritory(generated, order, SlotOwners(|order|, [1, 2]));
  }
}
