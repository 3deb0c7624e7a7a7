# Contiguous — a verified model of the game logic

Contiguous is a two-player territory-conquest game on a hexagonal grid.
Players take turns: each turn has a **reinforcement** phase and an **attack**
phase. In a combat, each side rolls one die and adds half its armies, and the
attacker wins only on a strictly greater total. This project models the game
logic in Dafny and proves the properties that logic promises.

What is modelled:

- **The game state** (`js/game.js`, module `Rules`, class `Rules.Game`):
  - the player list, the territory list, the current player index, the phase and the reinforcement pool;
  - `addPlayer`, `assignTerritory`, `setArmies`, `calculateReinforcements`, `canAttack`, `resolveCombat`, `nextTurn` and `checkWinCondition`;
  - the shuffled partition of `initialize`.

  Each method reassigns the fields and is tied to a pure function of the old state (`AssignIn`, `SetArmiesIn`, `Combat`, `NextIndex`, `Winner`, `Partitioned`). The game's properties are proved about those functions.
- **The map generator** (`js/map-generator.js`, modules `MapGrid`, `MapEdges`, `Maps`):
  - the column-major grid;
  - the removal of the last two columns and rows, with renumbering;
  - the threshold neighbour pass, which the generator runs twice;
  - the repair that links every isolated territory to its nearest one.

  Distances are an abstract integer function of two cells' columns and rows.
- **The heuristic AI player** (`js/ai-player.js`, module `Strategy`, class `Strategy.AIPlayer`):
  - candidate filters;
  - integer scores;
  - first-maximum selections;
  - `handleReinforcement` and `handleAttack`.
- **The simple AI** (`js/ai.js`, module `SimpleAI`, class `SimpleAI.AI`):
  - the one-army reinforcement;
  - the best-pair attack loop, bounded by `maxAttacksPerTurn`.
- **The page controller** (the class `Game` of `js/main.js`; module `Controller`, class `Controller.GameController`):
  - `endTurn`;
  - the AI turn of `makeAIMove`, capped at three attack moves;
  - the registration of AI players;
  - the setup of `initializeGame`.

Module `Board` holds the shared records, the lookup by id, and the first-maximum reduction. Module `Arith` holds facts about Euclidean division.

Random choices are inputs:

- the shuffle is a permutation `order` of board positions;
- the die rolls are `Dice` values in 1..6;
- the easy-mode picks are natural numbers reduced modulo the candidate count.

Lookups by id are plain indexing on a well-formed board. On such a board, ids are positions and every neighbour reference is a position. The map generator produces exactly such boards (`Maps.GeneratedMapShape`).

## Model

| member | source | states |
|---|---|---|
| Board.Find | js/game.js:71 | the position of the first territory carrying the id, and None exactly when no territory carries it |
| Board.FirstMax | js/ai-player.js:95-99 | the reduce keeps the first position with a maximal score: nothing earlier ties it, nothing scores more, None only for an empty list |
| Board.FirstMaxSnoc | js/ai-player.js:98 | one reduce step: a new element replaces the best only with a strictly greater score |
| Rules.AssignIn | js/game.js:70-75 | only the first territory with the id gets the new owner; its armies and every other territory stay; an unknown id changes nothing |
| Rules.SetArmiesIn | js/game.js:77-82 | the territory with the id ends with `max(1, count)` armies (at least 1 and at least count), keeps its owner, and nothing else changes; an unknown id changes nothing |
| Rules.SetArmiesKeepsFloor | js/game.js:80 | setArmies never leaves an owned territory without an army |
| Rules.Game.constructor | js/game.js:3-11 | an empty game: no players or territories, index 0, reinforcement phase, nothing selected, pool 0 |
| Rules.Game.CurrentPlayer | js/game.js:66-68 | the current player is one of the listed players |
| Rules.Game.AddPlayer | js/game.js:55-64 | the new player gets id `n + 1` and is appended, so ids stay 1, 2, ..., n in insertion order |
| Rules.Game.AssignTerritory | js/game.js:70-75 | the new territory list is AssignIn of the old one |
| Rules.Game.SetArmies | js/game.js:77-82 | the new territory list is SetArmiesIn of the old one |
| Rules.CountOwned | js/game.js:86 | the count is at most the board size and is 0 exactly when no territory has that owner |
| Rules.ReinforcementPool | js/game.js:87 | the pool is at least 2, equals `floor(owned / 3)` from 6 owned territories on, and is 2 below that |
| Rules.ReinforcementExamples | js/game.js:87 | 0, 5 and 6 owned territories give 2; 9 give 3; 30 give 10 |
| Rules.Game.CalculateReinforcements | js/game.js:84-88 | the pool is computed from the current player's owned territories and is at least 2 |
| Rules.Legal | js/game.js:90-101 | canAttack holds iff both ids are found, the source is owned by the current player, the target is not, the source has more than one army, and the target id is a neighbour of the source (both directions, given unique ids); source and target are distinct |
| Rules.CombatAt | js/game.js:109-142 | the attacker wins iff its total is strictly greater. The source ends with 1 army. A win moves the owner and gives the target `source - 1` armies. A loss removes `min(floor(margin / 2), target - 1)` armies when positive, and keeps the owner. No other territory changes. |
| Rules.Combat | js/game.js:103-107 | an unknown source or target returns false and changes nothing; otherwise the combat of the two found territories |
| Rules.CombatKeepsArmyFloor | js/game.js:120-142 | after a combat canAttack allows, every owned territory keeps at least one army, a conquest leaves `source - 1 >= 1` armies with the current player, and a defender never gains armies |
| Rules.CombatScenarioConquest | js/game.js:120-125 | 4 armies rolling 6 against 1 army rolling 1 conquer, leaving 1 and 3 armies |
| Rules.CombatTieGoesToDefender | js/game.js:120-139 | equal totals are a defender win that leaves the target unchanged |
| Rules.Game.CanAttack | js/game.js:90-101 | true only for a source the current player owns with more than one army and a target it does not own in the source's neighbour list, never for one territory against itself; with unique ids every such pair is allowed |
| Rules.Game.ResolveCombat | js/game.js:103-143 | the new board and the result are Combat of the old board, and the army floor holds on when canAttack held |
| Rules.NextIndex | js/game.js:146 | the next index is a valid player index |
| Rules.RotateIsAddition | js/game.js:146 | after k turns the index is `(i + k) mod n` |
| Rules.RotateFullCircle | js/game.js:146 | after n turns the index is back where it started |
| Rules.Game.NextTurn | js/game.js:145-152 | the index becomes `(index + 1) mod n`, the phase becomes reinforcement, selections are cleared, and the new player's pool is computed |
| Rules.FindPlayer | js/game.js:172 | the player with the id if one exists, None exactly when no player has it |
| Rules.Winner | js/game.js:166-176 | a winner owns every territory of a non-empty board, and a board owned entirely by a listed player (id not 0) always has a winner |
| Rules.Game.CheckWinCondition | js/game.js:166-176 | a winner is a listed player that owns every territory of a non-empty board, and a board owned entirely by a listed player with a nonzero id has a winner |
| Rules.WinnerScenario | js/game.js:166-176 | a board owned entirely by player 2 returns player 2; after one territory changes hands there is no winner |
| Rules.SlotOfSlice | js/game.js:35-41 | player `index` owns exactly slots `[index * k, (index + 1) * k)`, the last player every slot from `(p - 1) * k` on |
| Rules.SliceOfPlayer | js/game.js:33-41 | with `k = floor(n / p)`, each player's slice lies within the list and every slot of it goes to that player |
| Rules.AssignThenSetArmies | js/game.js:42-44 | one loop body gives the territory to the player with 2 armies and keeps ids equal to positions |
| Rules.PartitionPrefix | js/game.js:35-46 | after j slots, the territories named by the first j shuffled slots have their slot's owner and 2 armies, and all others are untouched |
| Rules.PartitionAssignsSlots | js/game.js:32-46 | the complete partition gives the territory in slot s to the player whose slice holds s, with 2 armies |
| Rules.PartitionOwnsEveryTerritory | js/game.js:35-46 | after the partition every territory is owned and holds 2 armies |
| Rules.Game.AssignSlice | js/game.js:41-45 | the inner loop extends the partition over one player's slice |
| Rules.Game.Partition | js/game.js:32-46 | the new territory list is the complete partition along the shuffle; with no players nothing changes |
| Rules.Game.Initialize | js/game.js:13-53 | the game is reset to two players with ids 1 and 2; the generated board is partitioned; index 0, reinforcement phase, and player 1's pool |
| MapGrid.Column | js/map-generator.js:43-59 | column `col` holds `rows` blank cells in row order; their ids continue from `base`, the length of the grid so far |
| MapGrid.FullGrid | js/map-generator.js:31-64 | the full grid has `cols * rows` cells; the cell layout is stated by FullGridLayout |
| MapGrid.FullGridSize | js/map-generator.js:42-61 | the full grid has `cols * rows` cells |
| MapGrid.FullGridLayout | js/map-generator.js:42-61 | cell i is the blank cell in column `i / rows` and row `i mod rows`, with id i (column-major order) |
| MapGrid.FullGridBounds | js/map-generator.js:42-43 | every cell lies inside the `cols` by `rows` rectangle |
| MapGrid.MaxOf | js/map-generator.js:68-69 | the maximum is an element at least as large as every element; an empty list has none |
| MapGrid.KeepMembers | js/map-generator.js:72-74 | the filter keeps exactly the cells strictly before the last two columns and rows |
| MapGrid.KeepAppend | js/map-generator.js:72-74 | the filter keeps the original order |
| MapGrid.Renumber | js/map-generator.js:77-79 | every territory gets its position as id, and nothing else changes |
| MapGrid.Trimmed | js/map-generator.js:66-80 | the trimmed board is no larger and has ids equal to positions |
| MapGrid.TrimFullGrid | js/map-generator.js:66-80 | trimming the full grid leaves the full grid two columns and two rows smaller, renumbered: `(cols - 2) * (rows - 2)` cells |
| Maps.MapGenerator.constructor | js/map-generator.js:10 | a generator starts with no territories |
| Maps.MapGenerator.CreateFullGrid | js/map-generator.js:31-64 | the generator's list becomes the full column-major grid |
| Maps.MapGenerator.RemoveOuterTerritories | js/map-generator.js:66-80 | the generator's list becomes the trimmed list |
| MapEdges.WithThresholdEdges | js/map-generator.js:170-188 | one pass only appends to neighbour lists and keeps the board's size |
| MapEdges.AddedCount | js/map-generator.js:172-186 | one pass adds k to m's list exactly once when k and m are distinct and close, and never otherwise |
| MapEdges.AddedMembers | js/map-generator.js:172-186 | one pass appends to m's list only ids of other existing positions |
| MapEdges.ThresholdSymmetric | js/map-generator.js:182-185 | the pass keeps the neighbour relation symmetric, counting multiplicities |
| MapEdges.ThresholdNoSelfLoops | js/map-generator.js:172-186 | the pass adds no self-edge and only ids of existing territories |
| MapEdges.ThresholdTwice | js/map-generator.js:170-191 | running the pass twice, as generateMap and ensureConnectivity do, lists every threshold edge twice |
| Maps.MapGenerator.CalculateNeighbors | js/map-generator.js:170-188 | the pair loop leaves exactly the board of one threshold pass |
| MapEdges.Isolated | js/map-generator.js:194 | exactly the positions with an empty neighbour list |
| MapEdges.NearestUpTo | js/map-generator.js:198-211 | the nearest other territory has the minimum distance, and every earlier candidate is strictly farther; None only when no other territory exists |
| Maps.MapGenerator.FindNearest | js/map-generator.js:198-211 | the running minimum finds NearestUpTo |
| MapEdges.LinkAt | js/map-generator.js:213-216 | a repair link appends one id to each end's list and changes nothing else |
| MapEdges.LinkSymmetric | js/map-generator.js:213-216 | a repair link keeps the neighbour relation symmetric |
| MapEdges.LinkNoSelfLoops | js/map-generator.js:213-216 | a repair link adds no self-edge and no dangling reference |
| MapEdges.LinkExtends | js/map-generator.js:213-216 | a repair link only appends, and both ends end up with a neighbour |
| MapEdges.Plan | js/map-generator.js:194-212 | the repair visits the isolated territories in order, each with its nearest territory |
| MapEdges.RepairExtends | js/map-generator.js:197-217 | the repair keeps the layout and only appends to neighbour lists |
| MapEdges.RepairSymmetric | js/map-generator.js:197-217 | the repair keeps the ids and the symmetry |
| MapEdges.RepairNoSelfLoops | js/map-generator.js:197-217 | the repair adds no self-edge and no dangling reference |
| MapEdges.RepairLinksIsolated | js/map-generator.js:197-217 | every repaired territory that has a nearest territory ends up with a neighbour |
| MapEdges.RepairOnlyReverse | js/map-generator.js:197-217 | a territory that was not isolated gains exactly the ids of the isolated territories linked to it, in repair order |
| MapEdges.RepairMinDegree | js/map-generator.js:194-217 | with at least two territories, every territory has a neighbour after the repair |
| Maps.MapGenerator.EnsureConnectivity | js/map-generator.js:190-218 | the list becomes a second threshold pass followed by the repair |
| Maps.RepairKeeps | js/map-generator.js:213-216 | the repair changes neither owners nor armies |
| Maps.ThresholdShape | js/map-generator.js:170-188 | one threshold pass keeps ids equal to positions, symmetry, no self-edge and no dangling reference, and changes no cell, owner or army count |
| Maps.RepairShape | js/map-generator.js:194-217 | the repair keeps the same graph properties and changes no cell, owner or army count |
| Maps.LinkedShape | js/map-generator.js:170-218 | the neighbour passes keep cells, owners and armies. The result is symmetric, has no self-edge or dangling reference, and leaves no territory isolated when there are two or more. |
| Maps.TrimmedGridBlank | js/map-generator.js:48-80 | the trimmed grid is blank: no neighbours, owners or armies, with ids equal to positions |
| Maps.GeneratedMapShape | js/map-generator.js:13-29 | the finished map holds the inner `(cols - 2) * (rows - 2)` cells in column-major order, unowned and without armies. Ids equal positions, and the neighbour relation is symmetric, with no self-edge or dangling reference. With two or more territories, every territory has a neighbour. |
| Maps.GeneratedMap | js/map-generator.js:13-29 | the generated map has `(cols - 2) * (rows - 2)` territories (none when a dimension is below 2) |
| Maps.MapGenerator.GenerateMap | js/map-generator.js:13-29 | the returned list is the generator's list and is the generated map |
| Strategy.EnemyCount | js/ai-player.js:109-111 | at most the number of entries, and 0 exactly when every neighbour is owned by the current player |
| Strategy.FriendlyCount | js/ai-player.js:215-218 | at most the number of entries, and 0 exactly when no neighbour is owned by the current player |
| Strategy.EnemyPlusFriendly | js/ai-player.js:215-226 | every neighbour entry is counted once, as friendly or as enemy |
| Strategy.EnemyOwners | js/ai-player.js:186-193 | exactly the owners of the enemy neighbours, and never the current player |
| Strategy.EnemyOwnersBound | js/ai-player.js:186-194 | there are no more distinct enemy owners than enemy entries |
| Strategy.Candidates | js/ai-player.js:42-54 | the owned, border or source filter: exactly the kept positions, in increasing board order |
| Strategy.EnemiesIn | js/ai-player.js:144-146 | the enemy entries of a neighbour list, one per enemy entry |
| Strategy.PossibleTargets | js/ai-player.js:64-66 | exactly the neighbour entries of the source that the current player does not own: every listed id is such a neighbour, every such neighbour is listed, and there is one per enemy entry |
| Strategy.TerritoryScoreBounds | js/ai-player.js:102-118 | the reinforcement score lies between `2 * armies + size` and that plus 3 per neighbour entry, and sits at the bottom exactly when all neighbours are friendly |
| Strategy.EvaluateTerritory | js/ai-player.js:102-118 | the reinforcement score lies between `2 * armies + size` and that plus 3 per neighbour entry |
| Strategy.AttackingScoreBounds | js/ai-player.js:128-141 | the attacking score is at most 2 per neighbour entry above `3 * armies`, and equals `3 * armies` exactly when every neighbour is friendly |
| Strategy.EvaluateAttacking | js/ai-player.js:128-141 | the attacking score lies between `3 * armies` and that plus 2 per neighbour entry |
| Strategy.EvaluateTarget | js/ai-player.js:155-171 | the target score is at most `5 * (source - target) + size`, at least that minus 2 per neighbour entry of the target, and at the top exactly when the target has only friendly neighbours |
| Strategy.StrategicAttackingScore | js/ai-player.js:182-197 | the hard source score is at least the medium one and at most 5 more per enemy entry, and equals it exactly without enemy neighbours |
| Strategy.EvaluateStrategicAttacking | js/ai-player.js:182-197 | the hard source score is at least the attacking score and at most 5 more per enemy entry |
| Strategy.StrategicTargetScore | js/ai-player.js:211-230 | in the hard target score the enemy terms cancel: it is `5 * (source - target) + size + 3 * friendly entries`, the medium target score plus 3 per neighbour entry minus the enemy entries |
| Strategy.EvaluateStrategicTarget | js/ai-player.js:211-230 | the hard target score is `5 * (source - target) + size + 3 * friendly entries`: the enemy terms cancel |
| Strategy.PickFirstMax | js/ai-player.js:95-99 | the candidate at the first maximal score, None exactly for no candidates |
| Strategy.SelectBestTerritory | js/ai-player.js:90-100 | in easy mode, the picked candidate; otherwise the first best reinforcement score. None exactly for no candidates. |
| Strategy.SelectBestAttacking | js/ai-player.js:120-126 | the first candidate with the best attacking score, None exactly for no candidates |
| Strategy.SelectStrategicAttacking | js/ai-player.js:173-180 | the first candidate with the best hard source score, None exactly for no candidates |
| Strategy.SelectBestTarget | js/ai-player.js:143-153 | the first possible target with the best target score, None exactly when there is none |
| Strategy.SelectStrategicTarget | js/ai-player.js:199-209 | the first possible target with the best hard target score, None exactly when there is none |
| Strategy.ReinforcementTarget | js/ai-player.js:42-46 | the picked territory is a border territory, and there is none exactly when no border territory exists |
| Strategy.AddArmiesAt | js/ai-player.js:45-48 | the setArmies of a picked position, or nothing without a pick, keeps the board's layout |
| Strategy.AddArmiesEffect | js/ai-player.js:47 | adding a non-negative amount to an owned territory stores the sum at that position, and nothing else changes |
| Strategy.AddArmiesOnly | js/ai-player.js:47 | the army total grows by exactly the amount; the territory gains the amount and every other territory stays |
| Strategy.Reinforced | js/ai-player.js:17-49 | reinforcing keeps the board's layout |
| Strategy.ReinforcementWithoutBorder | js/ai-player.js:42-48 | without a border territory reinforcing changes nothing |
| Strategy.ReinforcementOnBorder | js/ai-player.js:17-49 | with a border territory, one border territory receives the whole amount, nothing else changes, and the army total grows by the amount |
| Strategy.ReinforcementAsWrittenIsNaN | js/ai-player.js:18-29 | as written the reinforced army count is NaN for every starting count, where the pool gives `armies + pool` |
| Strategy.ArmiesAfterReinforcementAsWritten | js/ai-player.js:17-49 | the army counts as written: one count per territory |
| Strategy.ReinforcementAsWrittenLosesArmies | js/ai-player.js:17-49 | as written, a reinforcement with a border territory turns that border territory's count into NaN and leaves every other count as it was |
| Strategy.ChooseSource | js/ai-player.js:53-83 | the source is owned by the current player and has more than one army; there is none exactly when no such territory exists |
| Strategy.ChooseTarget | js/ai-player.js:61-83 | the target is a neighbour of the source not owned by the current player; there is none exactly when the source has no enemy neighbour |
| Strategy.ChosenAttackIsLegal | js/ai-player.js:52-88 | every pair handleAttack fights passes canAttack, and no pair is chosen exactly when there is no source or the source has no enemy neighbour |
| Strategy.ChooseAttack | js/ai-player.js:52-88 | the chosen pair is an owned source with more than one army and a neighbour it does not own; there is none exactly when no source exists or the chosen source has no enemy neighbour |
| Strategy.Attacked | js/ai-player.js:52-88 | attacking keeps the board's layout, and the board is unchanged when handleAttack chooses no pair |
| Strategy.AttackWithoutChoice | js/ai-player.js:52-88 | handleAttack changes nothing when no owned territory has more than one army, or when the chosen source has only friendly neighbours |
| Strategy.AttackKeepsBoard | js/ai-player.js:85-87 | handleAttack keeps the board well formed and keeps the army floor |
| Strategy.AIPlayer.constructor | js/ai-player.js:4-7 | the difficulty and the personality are stored |
| Strategy.AIPlayer.MakeMove | js/ai-player.js:9-15 | the reinforcement phase reinforces with the recomputed pool and the attack phase attacks; the board stays well formed |
| Strategy.AIPlayer.HandleReinforcement | js/ai-player.js:17-50 | the pool is recomputed and the board becomes Reinforced with that pool, the same for all personalities |
| Strategy.AIPlayer.HandleAttack | js/ai-player.js:52-88 | the board becomes Attacked, stays well formed and keeps the army floor |
| SimpleAI.MostConnected | js/ai.js:19-26 | the first owned territory with the longest neighbour list; None exactly when nothing is owned |
| SimpleAI.ReinforcedByOne | js/ai.js:17-30 | the reinforcement keeps the board's layout and changes nothing when the player owns no territory, like the `if (targetTerritory)` guard (the source's `reduce` throws on that empty list first) |
| SimpleAI.OwnedCandidates | js/ai.js:19 | the owned filter yields exactly the owned positions, in increasing order |
| SimpleAI.FirstMaxOwned | js/ai.js:22-26 | the first maximal neighbour count over the owned list is the first longest list on the board |
| SimpleAI.ReinforceByOneEffect | js/ai.js:19-30 | exactly one army is added, to the first owned territory with the longest neighbour list, and nothing else changes |
| SimpleAI.PairsOf | js/ai.js:56-60 | the pairs of one source, in the order of its enemy neighbours |
| SimpleAI.PairsFrom | js/ai.js:55-72 | the nested loops visit exactly the pairs of the given sources and their enemy neighbours |
| SimpleAI.AttackPairs | js/ai.js:46-60 | every candidate pair passes canAttack's conditions, and every such pair is a candidate |
| SimpleAI.BestOf | js/ai.js:53-72 | the pair at the first maximal score, None exactly for no pairs |
| SimpleAI.BestAttack | js/ai.js:46-72 | the chosen pair passes canAttack, and there is none exactly when no legal attack exists |
| SimpleAI.BestOfIsMax | js/ai.js:53-72 | the kept pair is one of the offered pairs and no offered pair scores higher |
| SimpleAI.BestOfSnoc | js/ai.js:66-70 | a later pair replaces the best only with a strictly higher score |
| SimpleAI.PairsFromSnoc | js/ai.js:55-60 | the loops visit the pairs of one more source after those of the earlier sources |
| SimpleAI.BestAttackIsBest | js/ai.js:46-72 | the chosen pair passes canAttack and scores at least as much as every legal pair; there is none exactly when no legal attack exists |
| SimpleAI.FightBest | js/ai.js:74-75 | fighting the best pair keeps the board well formed and the army floor |
| SimpleAI.BestPairKeepsArmyFloor | js/ai.js:74-75 | the combat on the best pair keeps the army floor |
| SimpleAI.AttackRun | js/ai.js:37-93 | the sequence keeps the board's layout and fights at most once per roll pair |
| SimpleAI.AttackRunStep | js/ai.js:40-88 | one step: without a pair or budget the sequence ends; otherwise it fights, then stops at a winner or goes on |
| SimpleAI.AttackRunEnds | js/ai.js:39-89 | a sequence that has spent its budget, or finds no legal pair, ends here without a winner |
| SimpleAI.AttackRunAdvances | js/ai.js:74-85 | a combat on the best pair either ends the sequence with a winner or leaves the rest of the sequence on the new board with the next roll pair |
| SimpleAI.AttackRunStops | js/ai.js:40-88 | the sequence stops with a winner only after a combat that produced one, and stops early without a winner only when no legal pair is left |
| SimpleAI.AttackRunKeepsArmyFloor | js/ai.js:46-85 | the whole sequence keeps every owned territory at one army or more |
| SimpleAI.AI.constructor | js/ai.js:4-7 | medium difficulty and a budget of 3 attacks per turn |
| SimpleAI.AI.MakeReinforcementMove | js/ai.js:17-35 | the board becomes ReinforcedByOne and the phase becomes attack |
| SimpleAI.AI.FindBestAttack | js/ai.js:46-72 | the nested loops find BestAttack |
| SimpleAI.AI.ScanTargets | js/ai.js:56-71 | the inner loop offers every enemy neighbour of one source to the running best |
| SimpleAI.AI.MakeAttackMove | js/ai.js:37-93 | the board and the combat count are those of AttackRun. A winner keeps the turn, the phase, the selections and the pool. Otherwise the turn passes as nextTurn does: next index, reinforcement phase, cleared selections and the new player's pool |
| SimpleAI.AI.NextAttack | js/ai.js:45-83 | it fights iff a legal pair exists, then reports whether the board has a winner |
| SimpleAI.AI.MakeMove | js/ai.js:9-15 | the reinforcement phase reinforces and opens the attack phase, keeping the turn, the selections and the pool. The attack phase runs the attack sequence, with the turn, phase, selections and pool MakeAttackMove gives |
| Controller.MoveEffect | js/ai-player.js:9-15 | one AIPlayer move keeps the board's layout and its well-formedness |
| Controller.AttackMoves | js/main.js:122-144 | the AI turn's attack loop keeps the board's layout and makes at most one move per set of choices |
| Controller.AttackMovesStep | js/main.js:125-141 | one step of the loop: move, then stop at a winner or go on |
| Controller.AttackMovesStop | js/main.js:125-141 | the loop stops early only right after a move that produced a winner; otherwise it makes all three moves |
| Controller.AttackMovesKeepArmyFloor | js/main.js:131 | every move of the loop keeps the army floor |
| Controller.GameController.constructor | js/main.js:14 | the controller starts without AI players |
| Controller.GameController.EndTurn | js/main.js:94-107 | from the attack phase the turn passes and the result says whether the next player is an AI; from the reinforcement phase the attack phase opens with the same player |
| Controller.GameController.MakeAIMove | js/main.js:109-145 | without a registered AI nothing happens. Otherwise there is one move in the current phase, then up to three attack moves. A winner ends the game without ending the turn: the selections stay and the pool is the one the first move left. Otherwise the turn ends: next index, reinforcement phase, cleared selections and the new player's pool. |
| Controller.GameController.AttackPhase | js/main.js:122-144 | the attack loop leaves the board of AttackMoves. A winner leaves the index, phase, selections and pool as they were; otherwise the turn ends with cleared selections and the new player's pool |
| Controller.GameController.AttackOnce | js/main.js:131-138 | one attack move and the win check; the pool is unchanged |
| Controller.GameController.RegisterAIPlayers | js/main.js:30-34 | every AI player gets a fresh balanced AIPlayer with its difficulty, under its id, and other entries stay |
| Controller.GameController.InitializeGame | js/main.js:20-58 | the corrected setup: two players, an AI for player 2, and the generated map partitioned along the shuffle |
| Controller.GameController.InitializeGameAsWritten | js/main.js:20-58 | as written the game's territory list stays empty, whatever the map and the shuffle, while the AI player is still registered as in InitializeGame |
| Controller.UnstoredMapOwnsNothing | js/main.js:22-58 | the intended setup owns every territory with 2 armies; the setup as written owns none and has no winner |

## Left out

- `js/renderer.js` is not part of this model: it is drawing and click handling only.
- DOM and UI work is not modelled: `updateUI` in both files, `showGameOver`, `alert`, the game-over reset and the resize listener. The win check that `updateUI` repeats is not modelled either.
- The `setTimeout` pacing of both attack sequences is not modelled; each sequence is a bounded loop.
- Floating-point geometry is replaced by abstract inputs:
  - the window size, the hexagon sizes and the pixel positions are not modelled;
  - the `Math.sqrt` distance is an abstract integer function of two cells' columns and rows, and `hexWidth * 1.1` is a threshold parameter;
  - the grid dimensions computed in `generateMap` are parameters.
- `filterTerritories`, `isHexagonInBounds` and `selectTerritories` are not modelled, because `generateMap` never calls them.
- `Math.random` is replaced by inputs:
  - the shuffle is a permutation of board positions;
  - the die rolls are values in 1..6;
  - the easy-mode picks are natural numbers reduced modulo the candidate count, which reaches every index the source can draw.
- The `width * height / 100` size term is an abstract integer function of the territory id. The territories the generator builds have no width or height, so the source computes NaN here; that NaN is not modelled.
- One id-keyed collection replaces the mix of array and map calls:
  - `get(id)` and `find` are lookups by id, `values()` is the list, and `clear()` empties it;
  - scores and filters require a board whose neighbour references all exist. `js/ai-player.js` throws on a missing one (`get(n).owner`). `js/ai.js` tolerates one: lines 57-58 drop a reference that `find` does not resolve. The model does not cover that case. Every board the generator builds has no missing reference (`Maps.GeneratedMapShape`), and every operation keeps the board well formed.
- Shared, mutable territory records are not modelled; territories are values. For example, the generator's list is handed to the game and the renderer as the same objects. A territory attacking itself behaves as the one shared record would, because the updates are applied in the source's order.
- `Controller.GameController.EndTurn` returns whether the next player is an AI instead of calling `makeAIMove` itself. The caller makes the AI turn.
- The current player is undefined, and every use throws, when the index is outside the player list; the methods that read it require a valid index.
- `SimpleAI.AI.MakeReinforcementMove` requires an owned territory, because the source's `reduce` has no initial value and throws on an empty list.
- The three personalities of `handleReinforcement` run the same code and are modelled once.
- `Controller.GameController.InitializeGame` does not reset the current player index or the phase, because `initializeGame` does not either.

## Findings

| source | as written | input that shows it | evidently intended | confidence | as-written member | corrected member |
|---|---|---|---|---|---|---|
| js/ai-player.js:18 | `calculateReinforcements()` returns nothing, so `reinforcements` is undefined. `setArmies(id, armies + undefined)` then stores `Math.max(1, NaN)`, which is NaN. | under the id-keyed collection the model uses, any AI reinforcement with a border territory, e.g. a border territory with 2 armies, with the integer size term the model uses. (The collection is really an array (js/game.js:5, 29), so `game.territories.get(n)` at js/ai-player.js:25, 34 and 43 throws first in every mode.) With the source's NaN size term (js/ai-player.js:115) every medium or hard score is NaN, `reduce` returns null and `target.id` throws first, so only easy mode reaches the store | the border territory gains the pool `calculateReinforcements` stores in `availableReinforcements` | high; not executed | Strategy.ReinforcementAsWrittenLosesArmies | Strategy.AIPlayer.HandleReinforcement |
| js/main.js:23 | under the id-keyed collection the model uses, the territory collection is emptied, but the generated map (line 41) is never stored into it. (The collection is really an array (js/game.js:5, 16), so `clear()` is not a function and line 23 itself throws; the game still never gets a board.) Every `assignTerritory` and `setArmies` of the partition (lines 55-56) finds no territory, and the game has no board. | any generated map, e.g. two territories with the identity shuffle | store the generated map in the game before partitioning, as `js/game.js:29` does | high; not executed | Controller.GameController.InitializeGameAsWritten | Controller.GameController.InitializeGame |
