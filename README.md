# Demstrat algo: the turn logic of AlgoStrategy

This project models the decision logic of the `AlgoStrategy` bot in
`Demstrat-algo/algo_strategy.py`, a Terminal (Correlation One) game algorithm,
and proves properties of that model in Dafny.

On each turn the bot runs `starter_strategy` on a game state that holds:
- the board: cells with the units standing on them,
- the resource pools (MP for mobile units, SP for structures),
- the library queries it calls.

It answers with spawn, remove and upgrade requests. It also keeps a handful of
fields from one turn to the next:
- the depth `line` of its defence line and the previous depth `prev_line`,
- the rebuild ledger `need_rebuild`, a dict from cell to unit type,
- `turn_to_rebuild`,
- the corner flags `left_removed`, `right_removed` and `just_attacked`,
- the attack flag `ready_to_fire`.

The model has two layers.

* **Turns** (`turns.dfy`) is the specification. Every operation is a pure step
  from the old field values (`Memory`) and the turn's board (`Snapshot`) to the
  new field values and the requests issued, in issue order. `Turn` composes the
  steps exactly as `starter_strategy` calls them. The lemmas there state what
  one turn and several consecutive turns do:
  - the line depth stays in {0, 11, 12, 13};
  - the ledger lives one turn;
  - the attack is armed on the turns t ≡ 2 (mod 3) from 5 to 98, except turn 8;
  - the left breach never fires;
  - the right-breach cycle takes three turns and returns every field to where it started.
* **Strategy** (`strategy.dfy`) is the bot itself. `AlgoStrategy` is a class
  with the same fields, and its methods update them in place and append
  requests to a `GameState` log. Each method is proved to leave the fields at
  the step's new values and to append exactly the step's requests.

The helpers the strategy relies on live in their own modules:

| Helper | Module | What it computes |
|---|---|---|
| `detect_enemy_unit` | `Scanner` | opponent-unit counting |
| `ourlocations` | `LineGeometry` | the region itself |
| line cells | `LineGeometry` | wall row and turret cells |
| `best_line_location` | `LineDecision` | decision tree |
| `need_rebuild` | `RebuildLedger` | the ledger as an insertion-ordered list with distinct cells |
| `damage_to_scout`, `damage_to_interceptor` | `PathRisk` | path-damage estimates |
| `filter_blocked_locations`, `get_defence_health` | `Queries` | board queries |
| attack sizing and request lists | `Attacks` | sizing and requests |

Some code is unreachable but is modelled exactly as written, with lemmas that
show it cannot run:
- **The `line = 11` arm in `best_line_location`.** It repeats a row-14 turret
  test that has just answered 0, so it cannot be reached. `NextLine` keeps the
  arm, and `FirstBranchNeverElevenFromDeep` shows it is never taken.
- **The left-breach test in `starter_strategy`.** It passes `valid_x=[[0,1]]`,
  a list that holds a list. Python's `in` never finds an integer in it, so the
  count is always 0. `LeftRemovedNeverSet` shows that `left_removed` is never
  set and that `attack_left` never runs.
- **The turn-10 branch of `default_opening_defence`.** It writes
  `self.ready_to_fire==True`, a comparison, not an assignment, so it leaves the
  flag unchanged. The branch is unreachable anyway, because 11 is not in
  `range(6, 102, 3)`. `OpeningArms` gives the closed form.

## Model

| member | source | states |
|---|---|---|
| LineGeometry.OurColumnsShape | Demstrat-algo/algo_strategy.py:60 | the first n columns of the comprehension hold n(n+1) cells, and a cell is in them iff 0 <= x < n and 13 - x <= y <= 14 + x |
| LineGeometry.OurLocationsShape | Demstrat-algo/algo_strategy.py:59-60 | ourlocations holds 210 cells: exactly the cells with 0 <= x <= 13 and 13 - x <= y <= 14 + x: the left half (x <= 13) of the arena, on both sides of the centre line, so it includes opponent cells with y >= 14 |
| Strategy.AlgoStrategy.constructor | Demstrat-algo/algo_strategy.py:48-57 | on_game_start's field setup: no line, previous line 0, empty ledger, all flags false; the ledger starts with one entry per cell (`Valid`), which every method that changes the fields keeps |
| Scanner.DetectEnemyUnit | Demstrat-algo/algo_strategy.py:390-397 | the double loop returns the number of opponent units, on cells holding a stationary unit, that pass the type / x / y filter, with an unset filter part matching everything |
| Scanner.RangeAllows | Demstrat-algo/algo_strategy.py:414 | an integer is in list(range(lo, hi)) iff lo <= v < hi |
| Scanner.EnemyCountMonotone | Demstrat-algo/algo_strategy.py:390-397 | a narrower filter never counts more units |
| Scanner.CountMatchingMonotone | Demstrat-algo/algo_strategy.py:393-396 | the same for the units of one cell |
| Scanner.UnsetFilterCountsMost | Demstrat-algo/algo_strategy.py:390-397 | the unfiltered count bounds every filtered count |
| Scanner.CountMatchingNone | Demstrat-algo/algo_strategy.py:395 | a cell whose x is not in valid_x contributes nothing |
| Scanner.NestedKeysCountNothing | Demstrat-algo/algo_strategy.py:129 | an x filter that holds only lists, such as [[0, 1]], counts 0 on every board |
| LineDecision.CensusNested | Demstrat-algo/algo_strategy.py:414-436 | the counts the tree asks for are nested: front-row turrets <= front row <= rows 14-15 <= rows 14-16 |
| LineDecision.NextLineInDepths | Demstrat-algo/algo_strategy.py:412-440 | from a depth in {0, 11, 12, 13} the tree picks a depth in {0, 11, 12, 13} |
| LineDecision.CrowdedFrontFromShallow | Demstrat-algo/algo_strategy.py:414-417 | more than four opponent units on the front row move a shallower line to exactly 11 |
| LineDecision.TurretOnFrontKeepsLine | Demstrat-algo/algo_strategy.py:414-428 | with a crowded front row holding an opponent turret, a line at 11 or deeper is left where it is |
| LineDecision.FirstBranchNeverElevenFromDeep | Demstrat-algo/algo_strategy.py:418-428 | in the first branch a line at 12 or deeper is never set back to 11 (the `line = 11` arm is dead) |
| LineDecision.StandDownIff | Demstrat-algo/algo_strategy.py:412-440 | the line is dropped (depth 0) iff at most four opponent units stand on rows 14-16 of the band |
| LineDecision.SettlesWithinThree | Demstrat-algo/algo_strategy.py:412-440 | on an unchanged board the depth reaches a fixed point after at most three calls |
| LineDecision.ClimbTakesThree | Demstrat-algo/algo_strategy.py:414-424 | from no line, a crowded front with no turrets on rows 14 and 15 climbs 11, 12, 13 and stays |
| Strategy.AlgoStrategy.BestLineLocation | Demstrat-algo/algo_strategy.py:412-440 | sets prev_line to the old line and line to the tree's choice for the board, nothing else |
| LineGeometry.LineWallsShape | Demstrat-algo/algo_strategy.py:446-448 | the wall row of a line at depth d is exactly the cells y = d, 16 - d <= x <= 20 |
| LineGeometry.TeardownCells | Demstrat-algo/algo_strategy.py:441-451 | leaving depth 0 clears ourlocations; leaving depth d != 0 clears exactly the wall row of d and the turret cells x in {6, 9, 13, 18, 21} at y = d - 2 |
| LineGeometry.BuildTeardownAgree | Demstrat-algo/algo_strategy.py:441-476 | for d != 0, the cells remove_line clears are the wall row and turret cells of d, and demolishing_defence spawned each as a wall or a turret respectively |
| LineGeometry.UpgradedLineCellsWithinWalls | Demstrat-algo/algo_strategy.py:472 | for the depths 11-13, the six line cells upgraded all lie in the wall row just spawned |
| Turns.TeardownIff | Demstrat-algo/algo_strategy.py:441-451 | remove_line issues requests iff the depth changed; then it sets turn_to_rebuild to the next turn and clears the old line's cells; otherwise it changes nothing |
| Strategy.AlgoStrategy.RemoveLine | Demstrat-algo/algo_strategy.py:441-451 | leaves the fields and appends the requests of the remove_line step |
| Turns.DemolishingDefenceIff | Demstrat-algo/algo_strategy.py:452-476 | demolishing_defence issues nothing iff there is no line, and never changes a field |
| Strategy.AlgoStrategy.DemolishingDefence | Demstrat-algo/algo_strategy.py:452-476 | appends the twelve build requests of the current line, in source order, or nothing without a line |
| RebuildLedger.PutCells | Demstrat-algo/algo_strategy.py:657 | the dict write covers the old cells plus the written one, holds the new entry, keeps the entries of other cells and appends a new cell at the end |
| RebuildLedger.PutKeepsDistinct | Demstrat-algo/algo_strategy.py:657 | the write keeps one entry per cell and invents no other entry |
| RebuildLedger.PutAllAppend | Demstrat-algo/algo_strategy.py:653-657 | writing a and then b is writing a + b |
| RebuildLedger.PutAllDistinct | Demstrat-algo/algo_strategy.py:653-657 | a sequence of writes keeps one entry per cell |
| RebuildLedger.PutAllCells | Demstrat-algo/algo_strategy.py:653-657 | after the writes the ledger covers the old cells and the written ones |
| RebuildLedger.PutAllLastWriteWins | Demstrat-algo/algo_strategy.py:657 | the last write to a cell is the entry the ledger holds for it |
| RebuildLedger.PutAllProvenance | Demstrat-algo/algo_strategy.py:653-657 | every entry after the writes was written or is an old entry for a cell never written |
| RebuildLedger.DamagedAtIff | Demstrat-algo/algo_strategy.py:654-657 | an entry is recorded on a cell iff an own stationary unit of that type with health below the threshold stands there |
| RebuildLedger.DamagedIff | Demstrat-algo/algo_strategy.py:652-657 | the same over all swept locations |
| RebuildLedger.RemovalsCoverRecords | Demstrat-algo/algo_strategy.py:655-656 | one remove request per record, and a cell is asked to be cleared iff it was recorded |
| Strategy.AlgoStrategy.RemoveDamaged | Demstrat-algo/algo_strategy.py:652-657 | the ledger becomes the old ledger with the sweep's records written in, and exactly their remove requests are appended |
| Strategy.AlgoStrategy.RemoveDamagedAt | Demstrat-algo/algo_strategy.py:654-657 | the same for the units of one location |
| RebuildLedger.RebuildRequestsIff | Demstrat-algo/algo_strategy.py:659-663 | rebuilding issues one spawn per entry, and a spawn of (type, cell) iff the ledger holds that entry |
| RebuildLedger.RebuildRequestsAt | Demstrat-algo/algo_strategy.py:661-662 | the i-th spawn rebuilding issues is for the i-th ledger entry, in insertion order |
| RebuildLedger.RebuildOncePerCell | Demstrat-algo/algo_strategy.py:659-663 | with one entry per cell, as in a dict, no two of rebuilding's spawns name the same cell |
| Strategy.AlgoStrategy.Rebuilding | Demstrat-algo/algo_strategy.py:659-663 | appends one spawn per ledger entry (one per cell, the ledger being `Valid`) in ledger order and empties a non-empty ledger |
| PathRisk.EstimateDamage | Demstrat-algo/algo_strategy.py:608-621 | an invalid player index is an error; otherwise the triple loop returns the weighted path damage |
| PathRisk.AreaDamageAt | Demstrat-algo/algo_strategy.py:616-620 | the damage one path cell takes from the cells within 3.5 of it |
| PathRisk.UnitsDamageAt | Demstrat-algo/algo_strategy.py:618-620 | the damage from the units of one cell: damage_i times the weight for each opponent unit with damage_i > 0 whose range reaches |
| PathRisk.DamageToScout | Demstrat-algo/algo_strategy.py:596-621 | the scout estimate counts each threatening pair once |
| PathRisk.DamageToInterceptor | Demstrat-algo/algo_strategy.py:623-648 | the interceptor estimate counts each threatening pair twice |
| PathRisk.PathDamageDoubles | Demstrat-algo/algo_strategy.py:596-648 | the weight-2 estimate over any path is twice the weight-1 estimate |
| PathRisk.UnitsDamageDoubles | Demstrat-algo/algo_strategy.py:647 | the same for the units of one cell |
| PathRisk.AreaDamageDoubles | Demstrat-algo/algo_strategy.py:643-647 | the same for the cells around one path cell |
| PathRisk.InterceptorIsTwiceScout | Demstrat-algo/algo_strategy.py:596-648 | from the same launch cell, the interceptor estimate is exactly twice the scout estimate |
| PathRisk.PathDamageAppend | Demstrat-algo/algo_strategy.py:614-620 | the estimate is additive over a split path, and the empty path costs 0 |
| PathRisk.UnitsDamageNonNegative | Demstrat-algo/algo_strategy.py:618-620 | a non-negative weight gives a non-negative cell contribution |
| PathRisk.AreaDamageNonNegative | Demstrat-algo/algo_strategy.py:616-620 | the same for one path cell |
| PathRisk.PathDamageNonNegative | Demstrat-algo/algo_strategy.py:614-620 | every estimate is non-negative |
| PathRisk.UnitsDamageAddOne | Demstrat-algo/algo_strategy.py:618-620 | one more unit never lowers a cell's contribution, and an own unit leaves it unchanged |
| PathRisk.AreaDamageAddUnit | Demstrat-algo/algo_strategy.py:616-620 | the same for one path cell |
| PathRisk.AddingUnitNeverLowers | Demstrat-algo/algo_strategy.py:614-620 | adding a unit to the board never lowers the estimate, and adding an own unit leaves it unchanged |
| Queries.UnblockedIff | Demstrat-algo/algo_strategy.py:539-544 | a location is kept iff it is in the input and holds no stationary unit; the output is never longer |
| Queries.UnblockedIdempotent | Demstrat-algo/algo_strategy.py:539-544 | filtering twice is filtering once |
| Queries.FilterBlockedLocations | Demstrat-algo/algo_strategy.py:539-544 | the loop returns the unblocked locations in input order |
| Queries.FirstStationaryHealthIs | Demstrat-algo/algo_strategy.py:667-670 | the value is the health of the first stationary unit in the list, or 0 when none is stationary |
| Queries.GetDefenceHealth | Demstrat-algo/algo_strategy.py:665-672 | 0 for a cell without a stationary unit, else the health of its first stationary unit |
| Attacks.Ceil | Demstrat-algo/algo_strategy.py:253 | math.ceil: the least integer not below x |
| Attacks.Interceptors | Demstrat-algo/algo_strategy.py:353 | min(floor(enemy MP), 2): at most 2, at most the enemy MP, the largest such integer, non-negative for non-negative MP |
| Attacks.Demolishers | Demstrat-algo/algo_strategy.py:354 | the number of 3-MP demolishers the remaining MP pays for, with less than 3 MP left over |
| Attacks.MirrorMembership | Demstrat-algo/algo_strategy.py:366 | the mirrored list has the same length, and a cell is in it iff its reflection (27 - x, y) is among the originals |
| Attacks.MirrorInvolution | Demstrat-algo/algo_strategy.py:366 | mirroring twice gives back the cells |
| Attacks.MirrorSwapsHalves | Demstrat-algo/algo_strategy.py:366 | the mirror of a left-half cell is on the right half and vice versa |
| Attacks.SupportSidesDisjoint | Demstrat-algo/algo_strategy.py:365-366 | the left supports lie at x <= 8 and the right ones at x >= 19 |
| Attacks.DefaultAttackShape | Demstrat-algo/algo_strategy.py:363-388 | wall, interceptors and demolishers in that order; the wall sits on the far side one row up; interceptors and demolishers share the launch cell, which is (3, 10) iff the left estimate is at least the right; the support requests appear iff SP > 0 and stay on the launch side |
| Attacks.TiesGoLeft | Demstrat-algo/algo_strategy.py:373-376 | equal estimates launch from the left |
| Attacks.DefaultAttackBudget | Demstrat-algo/algo_strategy.py:367-370 | when the interceptors are affordable, the demolisher count is non-negative and interceptors plus demolishers cost at most the MP held, leaving less than 3 MP; when they are not, the demolisher count is negative (no demolisher is sent) and the interceptor request exceeds the MP held |
| Turns.DefaultAttackOnlyWhenArmed | Demstrat-algo/algo_strategy.py:102-107 | without a line, the default attack's requests are issued iff ready_to_fire is set, before the opening script |
| Strategy.AlgoStrategy.DefaultAttack | Demstrat-algo/algo_strategy.py:363-388 | when armed, appends the default attack's requests and clears ready_to_fire; otherwise does nothing |
| Attacks.DemolisherLaunchIff | Demstrat-algo/algo_strategy.py:349-362 | the interceptor screen at (22, 8) always comes first, and a demolisher request is issued iff the estimate exceeds 8 |
| Strategy.AlgoStrategy.DemolisherAttack | Demstrat-algo/algo_strategy.py:349-362 | appends the demolisher attack's requests and changes no field |
| Turns.OpeningArms | Demstrat-algo/algo_strategy.py:776-902 | default_opening_defence leaves ready_to_fire set iff it was set or 5 <= t <= 98, t mod 3 == 2 and t != 8 |
| Strategy.AlgoStrategy.DefaultOpeningDefence | Demstrat-algo/algo_strategy.py:776-902 | runs the opening script and updates ready_to_fire by the turn tests, nothing else |
| Strategy.AlgoStrategy.RemoveLeftDefence | Demstrat-algo/algo_strategy.py:173-180 | asks to clear the six left-corner cells and sets left_removed |
| Strategy.AlgoStrategy.RemoveRightDefence | Demstrat-algo/algo_strategy.py:181-186 | asks to clear the six right-corner cells and sets right_removed |
| Attacks.AttackLeftScreen | Demstrat-algo/algo_strategy.py:248-258 | attack_left sends interceptors iff the opponent's corner (0, 14) has a stationary unit with health, and then sends five plus one per 40 estimated damage |
| Strategy.AlgoStrategy.AttackLeft | Demstrat-algo/algo_strategy.py:248-258 | appends attack_left's requests and sets just_attacked |
| Attacks.AttackRightBudget | Demstrat-algo/algo_strategy.py:262-271 | when the interceptors are affordable, the scout count is non-negative and interceptors plus scouts cost at most the MP held, leaving less than 1; when they are not, the scout count is negative (no scout is sent) and the interceptor request exceeds the MP held; an empty corner with estimated damage below 40 sends no interceptors |
| Strategy.AlgoStrategy.AttackRight | Demstrat-algo/algo_strategy.py:262-271 | appends attack_right's requests and sets just_attacked |
| Turns.EarlyTurnsFollowLine | Demstrat-algo/algo_strategy.py:98-112 | below turn 101 the line branch is taken, whatever the flags |
| Turns.LateTurnsKeepLine | Demstrat-algo/algo_strategy.py:113-136 | from turn 101 on, line, prev_line, the ledger and turn_to_rebuild are frozen |
| Turns.SweepResets | Demstrat-algo/algo_strategy.py:99-100 | rebuilding followed by remove_damaged spawns the whole old ledger, then removes this turn's damaged structures, and leaves only their records |
| Turns.LineBodyMemory | Demstrat-algo/algo_strategy.py:102-112 | after the line calls, prev_line is the old line and line the tree's choice; turn_to_rebuild is set iff the depth changed; ready_to_fire is re-derived from the turn when there was no line; nothing else changes |
| Turns.LineTurnInDepths | Demstrat-algo/algo_strategy.py:98-112 | a line turn keeps the depth in {0, 11, 12, 13} |
| Turns.LineStaysInDepths | Demstrat-algo/algo_strategy.py:85-136 | every turn keeps the depth in {0, 11, 12, 13} |
| Turns.ReadinessAfterLineBody | Demstrat-algo/algo_strategy.py:102-112 | without a line, the line calls leave ready_to_fire set exactly on the arming turns; with a line they leave it alone |
| Turns.ReadinessAfterLineTurn | Demstrat-algo/algo_strategy.py:98-112 | the same for a whole turn below 101 |
| Turns.LedgerLivesOneTurn | Demstrat-algo/algo_strategy.py:98-112 | a line turn first respawns everything the ledger held and ends with only this turn's records in it |
| Turns.TurnKeepsLedgerDistinct | Demstrat-algo/algo_strategy.py:85-136 | every turn keeps need_rebuild at one entry per cell |
| Turns.FlushedNextTurn | Demstrat-algo/algo_strategy.py:98-112 | on two consecutive line turns, every entry recorded on the first is respawned on the second |
| Turns.LeftRemovedNeverSet | Demstrat-algo/algo_strategy.py:113-131 | the left-breach test never fires, so left_removed stays false and attack_left never runs |
| Turns.QuietLateTurnFortifies | Demstrat-algo/algo_strategy.py:113-136 | with no flag set and no right breach, a late turn only runs build_defences |
| Turns.RightBreachCycle | Demstrat-algo/algo_strategy.py:121-134 | a right breach clears the corner, the next turn runs attack_right, and the turn after runs build_defences and restores every field |
| Strategy.AlgoStrategy.StarterStrategy | Demstrat-algo/algo_strategy.py:85-136 | one call leaves the fields and appends the requests of `Turn`, the composition of the steps in the order starter_strategy calls them |
| Strategy.AlgoStrategy.LineTurn | Demstrat-algo/algo_strategy.py:98-112 | the line branch, against the line-turn step |
| Strategy.AlgoStrategy.LineBodyTurn | Demstrat-algo/algo_strategy.py:102-112 | the calls after the sweep, against the line-body step |
| Strategy.AlgoStrategy.OpenFieldTurn | Demstrat-algo/algo_strategy.py:102-107 | the no-line calls: best_line_location, default_attack when armed, default_opening_defence, remove_line |
| Strategy.AlgoStrategy.StandingLineTurn | Demstrat-algo/algo_strategy.py:108-112 | the standing-line calls: demolishing_defence, demolisher_attack, best_line_location, remove_line |

## Left out

- The gamelib queries are inputs of `Snapshot`, not reimplemented:
  - `find_path_to_edge`
  - `get_locations_in_range`
  - `damage_dealt_mobile`
  - the iteration order of `game_map`
  - `contains_stationary_unit`, modelled as "some unit on the cell is stationary"

  gamelib is not part of this model.
- `on_turn`, `submit_turn`, `on_action_frame` and the JSON parsing of frames are I/O and are not modelled. The random seed in `__init__` is not modelled either.
- The fixed build scripts (`build_defences`, `defend_left`, `defend_right`, the coordinate lists of `default_opening_defence`) are each one `Scripted` request. Their cell lists are not modelled. The effect of `default_opening_defence` on `ready_to_fire` is modelled.
- Requests only record what is asked. Resources are not deducted and placement rules are not checked: the engine may refuse a request, and the snapshot does not change within a turn. So three reads of a resource that the source makes after this turn's earlier spawns use the start-of-turn value instead:
  - the `Mp` read at line 256 of attack_left, after the interceptor spawn at line 255 (the scout count uses the turn's starting MP);
  - the SP guard `get_resource(0,0) > 0` at line 359 of demolisher_attack, after the interceptor and demolisher spawns;
  - the SP guard at line 384 of default_attack, after the wall, interceptor and demolisher spawns.
- Attacks.DefaultAttackBudget, Attacks.AttackRightBudget: the engine spawns only as many units as it can afford and nothing for a count below 1. That is not modelled. So the budget is stated only when the interceptors are affordable; otherwise the lemmas show the follow-up count is negative.
- Code that no modelled path calls is not modelled:
  - `demolisher_line_strategy`
  - `least_damage_spawn_location`
  - `build_reactive_defense`
  - `stall_with_interceptors`
  - `detect_my_unit`
  - `default_opening_attack`
  - the string block at lines 478-538
  - the first `damage_to_interceptor` (line 568), which the later definition at line 623 replaces
- `sp_leftover`, `full_defence` and `scored_on_locations` are set but never read by the modelled code. They are not modelled.
- PathRisk.EstimateDamage: for a player index other than 0 or 1 the source calls `_invalid_player_index` and then goes on. That gamelib routine is not part of this model, so the call is modelled as an error result. Every caller in the source passes 0.
- `find_path_to_edge` can return None. Here a path is always a list, possibly empty.
- Floating-point MP, SP, health and damage are exact `real` numbers. Python's floats are not modelled, and no rounding is modelled.
- Queries.GetDefenceHealth: the source returns None when a cell holds a stationary unit but its loop finds none. That cannot happen, so the model returns 0 in that unreachable case.
- Strategy.AlgoStrategy.DefaultAttack, Strategy.AlgoStrategy.DemolisherAttack: `damage_dealt_mobile` is a `Snapshot` input for player 0 and the demolisher type, so how the estimate is computed is not modelled.
