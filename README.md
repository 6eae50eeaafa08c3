# Mars Tycoon: the colony rule engine in Dafny

This project models the rule engine of the Mars Tycoon colony game (`Martian_Game.py`).
A colony has a Sol counter, cash, oxygen, grid energy, colonists split into engineers
and scientists, four kinds of building, researched technologies, a message log, a
lost flag, a won flag, a land capacity and the last market price. On each turn the
engine does seven things in a fixed order:

1. It applies the technology multipliers.
2. It sets solar efficiency from engineer coverage.
3. It produces and drains energy and clamps the store to [0, 20000].
4. Without power, compute and oxygen production are switched off.
5. Colonists breathe, and some die when the oxygen runs out.
6. An empty colony is lost, and the batch stops.
7. Under the SELL strategy, compute is sold for cash.

The player can buy buildings, research technologies, move colonists between jobs and
run batches of turns.

Three modules:

- `ColonyRules` (colony_rules.dfy) holds the static tables, the game-state record
  `Ledger`, and the rules as pure functions. One turn is `Turn`, built from
  `GridPhase`, `LifePhase` and `SellPhase`. A batch is `Advance`, which runs
  `RunFrom` turn by turn. The player actions are `Buy`, `Research` and `Reassign`.
  It also defines the colony invariant `Inv` and whole play sessions (`Session`).
- `ColonyGame` (colony_game.dfy) holds the class `Colony`. Its fields are the game
  state, updated in place as the game updates its state dictionary. Each method is
  proved to leave `Snapshot()` equal to the matching rule in `ColonyRules`. The turn
  loop of `AdvanceTime` breaks early on loss, like the game's.
- `ColonyProperties` (colony_properties.dfy) holds the proved properties. Per turn:
  energy, oxygen, blackout, deaths, loss, cash and logging. Per batch, by induction
  over the turns: bounds, Sol count, population, cash, logs and the invariant. Per
  action: the invariant. Over any sequence of actions: the invariant and
  monotonicity.

Inputs the game takes from outside become parameters:

- the market price of a batch (`price` of `AdvanceTime`, with the fetch fallback
  as `MarketPrice`);
- the random death count of each turn: `deaths[i]` is the draw used if turn `i`
  suffocates, and `DeathCounts` keeps every draw in [1, 3];
- the slider position of the workforce split (`AssignEngineers`), in [0, pop] as
  the slider allows.

Amounts of cash, oxygen, energy, efficiency and revenue are exact `real`s. Counts,
population and the Sol counter are `nat`s.

Where the code is subtle, the model follows it as written:

- The Sol counter moves at the start of a turn, so the turn on which the colony dies
  still counts, and log entries carry the new Sol.
- The death step lowers the population but not the engineer and scientist counts.
  So `engineers + scientists == pop` holds after a reassignment but not after a
  death (`TurnWorkforce`). The invariant the model keeps is
  `engineers + scientists >= pop`.
- The workforce split does not clamp its argument. It takes the slider's value
  as it is; the slider's range [0, pop] is the precondition of `AssignEngineers`.
- Efficiency reaches 1.2 with full engineer coverage and is 1.0 with no arrays.
- An owned technology can be researched again and is then paid for twice
  (`ResearchRepeat`). Only the buttons prevent it.
- Blackout, death and sale entries are logged only in one-day batches. The loss
  entry is always logged.

## Model

| member | source | states |
|---|---|---|
| ColonyRules.BuildingCost | Martian_Game.py:38-43 | building prices from the table: 5000, 15000, 8000 and 10000, all within [5000, 15000] |
| ColonyRules.Counts.Inc | Martian_Game.py:178 | one more building of the given kind; every other count unchanged; total up by one |
| ColonyRules.Counts.Total | Martian_Game.py:171 | the land in use: at least the count of every kind, and zero exactly when there are no buildings at all |
| ColonyRules.TechCost | Martian_Game.py:45-50 | research prices from the tree: 25000, 40000, 75000 and 250000, at least 25000 |
| ColonyRules.Parent | Martian_Game.py:45-50 | the prerequisite column of the tree: a technology is never its own parent, and a parent always costs less than its child |
| ColonyRules.Unlockable | Martian_Game.py:187 | Perovskite cells are always unlockable; ASICs and the reactor exactly when Perovskite cells are owned; Terraforming exactly when the reactor is owned |
| ColonyRules.Initial | Martian_Game.py:53-69 | the starting state satisfies the colony invariant, and its workforce exactly covers the population |
| ColonyRules.MarketPrice | Martian_Game.py:73-80 | the fetched quote when there is one; otherwise a fallback in [63000, 67000] |
| ColonyRules.SolarMult | Martian_Game.py:104 | 1.5 exactly when Perovskite cells are owned, else 1.0 |
| ColonyRules.CryptoMult | Martian_Game.py:105 | 1.5 exactly when quantum ASICs are owned, else 1.0 |
| ColonyRules.NuclearPower | Martian_Game.py:106 | 2000 exactly when the reactor is owned, else 0 |
| ColonyRules.Efficiency | Martian_Game.py:110-115 | always in [0.5, 1.2]; exactly 1.0 with no arrays; 1.2 exactly when engineers cover every array; 0.5 with no engineers |
| ColonyRules.EnergyProduction | Martian_Game.py:117-118 | never below the reactor bonus, which is non-negative; equal to it with no arrays |
| ColonyRules.EnergyDrain | Martian_Game.py:120-122 | non-negative; zero exactly when there are no data centres, scrubbers or habitats |
| ColonyRules.ClampEnergy | Martian_Game.py:124-125 | the result is in [0, 20000]; it is the input when the input is in range, 0 below it and 20000 above it |
| ColonyRules.ComputeGenerated | Martian_Game.py:135-139 | non-negative; zero without power; with power at least 50 per data centre (scientists only add) |
| ColonyRules.OxygenGenerated | Martian_Game.py:135-141 | zero without power; 25 per scrubber with power |
| ColonyRules.Revenue | Martian_Game.py:162 | non-negative for non-negative compute, price and multiplier; zero when any of them is zero |
| ColonyRules.Survivors | Martian_Game.py:151 | never more than the population; zero exactly when the deaths reach the population; otherwise the population minus the deaths |
| ColonyRules.GridPhase | Martian_Game.py:108-132 | changes only energy and log; energy in [0, 20000]; a blackout entry is added exactly when a one-day batch ends the step with zero energy |
| ColonyRules.LifePhase | Martian_Game.py:143-152 | changes only oxygen, population and log; oxygen never negative; at most three deaths; deaths only when the oxygen ends at zero |
| ColonyRules.SellPhase | Martian_Game.py:159-164 | changes only cash and log; cash never falls at a non-negative price; no cash during a blackout |
| ColonyRules.Turn | Martian_Game.py:100-165 | changes only Sol, cash, oxygen, energy, population, log and the lost flag; Sol up by one; energy in [0, 20000]; oxygen never negative; the log only grows |
| ColonyRules.Advance | Martian_Game.py:90-98 | a lost or won game is left entirely unchanged, market price included; otherwise the batch records the new price |
| ColonyRules.RunFrom | Martian_Game.py:100-157 | turns i.. of a batch, stopping right after the turn that empties the colony: the Sol counter never moves back and moves on when a turn remains; its frame and bounds are the `RunFromFrame` and `RunFrom*` lemmas |
| ColonyRules.RunFromFrame | Martian_Game.py:100-165 | a batch of turns changes only Sol, cash, oxygen, energy, population, log and the lost flag |
| ColonyRules.Buy | Martian_Game.py:167-181 | refused for land exactly when the total reaches capacity; otherwise refused for funds exactly when cash is below the price; a refusal changes nothing; a purchase debits exactly the price and adds exactly one building of that kind; the total never exceeds a capacity it started within |
| ColonyRules.Research | Martian_Game.py:183-198 | refused exactly when the parent is not owned; otherwise refused for funds exactly when cash is below the price; a refusal changes nothing; success debits exactly the price and appends the technology; the game is won exactly when it was already won or this success was Terraforming; the owned list only grows |
| ColonyRules.Reassign | Martian_Game.py:312-316 | the engineers are the slider value and engineers plus scientists equal the population; nothing else changes |
| ColonyGame.Colony.constructor | Martian_Game.py:53-69 | the object starts in the initial state |
| ColonyGame.Colony.LogEvent | Martian_Game.py:82-85 | appends the message stamped with the current Sol, nothing else |
| ColonyGame.Colony.AdvanceTime | Martian_Game.py:90-165 | the loop with early break leaves the object in the state `Advance` gives |
| ColonyGame.Colony.PlayTurn | Martian_Game.py:100-157 | one loop pass leaves the state `Turn` gives; the lost flag is set exactly when the population is zero |
| ColonyGame.Colony.UpdateGrid | Martian_Game.py:108-132 | the in-place grid update equals `GridPhase`; power is on exactly when the store is positive |
| ColonyGame.Colony.SupportLife | Martian_Game.py:143-152 | the in-place oxygen and death update equals `LifePhase` |
| ColonyGame.Colony.SellCompute | Martian_Game.py:159-164 | the in-place sale equals `SellPhase` |
| ColonyGame.Colony.BuyBuilding | Martian_Game.py:167-181 | the in-place purchase and its outcome equal `Buy` |
| ColonyGame.Colony.ResearchTech | Martian_Game.py:183-198 | the in-place research and its outcome equal `Research` |
| ColonyGame.Colony.AssignEngineers | Martian_Game.py:312-316 | the in-place reassignment equals `Reassign` |
| ColonyProperties.ParentIsShallower | Martian_Game.py:45-50 | every parent lies strictly closer to a root, so the tree has no cycles; only Perovskite cells is a root |
| ColonyProperties.VictoryRoute | Martian_Game.py:183-198 | with 350000 in cash, researching Perovskite cells, the reactor and Terraforming in that order succeeds each time, wins, and costs exactly 350000 |
| ColonyProperties.TurnEnergy | Martian_Game.py:117-125 | the new store is the clamped sum of the old store and production minus drain |
| ColonyProperties.TurnOxygen | Martian_Game.py:141-151 | new oxygen is the balance of gated production minus two per colonist; a non-positive balance resets it to 0 and applies the death draw, floored at zero; otherwise nobody dies |
| ColonyProperties.TurnBlackout | Martian_Game.py:128-145 | with no energy left, no cash is earned and oxygen only falls by the colonists' breathing, floored at 0 |
| ColonyProperties.TurnPopulation | Martian_Game.py:147-151 | population never grows, falls by at most three, and only on a turn that ends with no oxygen |
| ColonyProperties.TurnLoss | Martian_Game.py:154-157 | the game becomes lost exactly when the population reaches zero; that turn earns no cash and ends the log with the failure |
| ColonyProperties.TurnCash | Martian_Game.py:159-165 | HODL leaves cash unchanged; at a non-negative price cash never falls |
| ColonyProperties.TurnLogs | Martian_Game.py:131-164 | in a batch of more than one day, the only entry a turn adds is the failure, exactly when the colony dies |
| ColonyProperties.TurnWorkforce | Martian_Game.py:150-151 | engineers and scientists are untouched by a turn, so a death leaves more workers than colonists |
| ColonyProperties.TurnPreservesInv | Martian_Game.py:100-165 | a turn keeps the colony invariant |
| ColonyProperties.RunFromBounds | Martian_Game.py:100-149 | after at least one turn, energy is in [0, 20000] and oxygen is non-negative |
| ColonyProperties.RunFromDays | Martian_Game.py:100-157 | the Sol counter rises by between 1 and the number of remaining turns; by all of them unless the colony died |
| ColonyProperties.RunFromPopulation | Martian_Game.py:147-151 | population never grows and falls by at most three per Sol elapsed |
| ColonyProperties.RunFromCash | Martian_Game.py:159-165 | HODL keeps cash; at a non-negative price cash never falls |
| ColonyProperties.RunFromLogs | Martian_Game.py:131-164 | the log only grows; a dead colony is lost with the failure last; batches longer than one day log nothing but the failure |
| ColonyProperties.RunFromPreservesInv | Martian_Game.py:100-165 | turns keep the colony invariant |
| ColonyProperties.AdvanceBounds | Martian_Game.py:100-151 | a batch of at least one turn on a running game leaves energy in [0, 20000] and oxygen non-negative |
| ColonyProperties.AdvanceDays | Martian_Game.py:100-157 | on a running game the Sol counter rises by the number of turns begun, at most `days`; it stops short only when the colony is lost |
| ColonyProperties.AdvancePopulation | Martian_Game.py:94-151 | over any batch population never grows and falls by at most three per Sol |
| ColonyProperties.AdvanceCash | Martian_Game.py:94-165 | HODL leaves cash unchanged over any batch; at a non-negative price cash never falls |
| ColonyProperties.AdvanceLogs | Martian_Game.py:94-164 | on a running game the log only grows; a colony that dies is lost with the failure last; batches longer than one day add at most that entry |
| ColonyProperties.AdvancePreservesInv | Martian_Game.py:90-165 | a batch at a non-negative price keeps the colony invariant |
| ColonyProperties.BuyPreservesInv | Martian_Game.py:167-181 | buying keeps the colony invariant, including total buildings within capacity and non-negative cash |
| ColonyProperties.PrereqClosedAppend | Martian_Game.py:187-193 | appending a technology whose parent is owned keeps every owned technology after its parent |
| ColonyProperties.ResearchPreservesInv | Martian_Game.py:183-198 | research keeps the colony invariant: the game is won exactly when Terraforming is owned, and every technology follows its parent |
| ColonyProperties.ResearchRepeat | Martian_Game.py:187-193 | an owned technology is researched again without refusal, paid for again and listed twice |
| ColonyProperties.ReassignPreservesInv | Martian_Game.py:312-316 | reassignment keeps the colony invariant |
| ColonyProperties.ApplyPreservesInv | Martian_Game.py:167-198 | every admissible action keeps the colony invariant |
| ColonyProperties.SessionPreservesInv | Martian_Game.py:90-198 | every playable sequence of actions keeps the colony invariant |
| ColonyProperties.ApplyMonotone | Martian_Game.py:90-198 | no action revokes a technology, clears the lost or won flag, moves the Sol counter back, removes a building, changes the land capacity or adds colonists |
| ColonyProperties.SessionMonotone | Martian_Game.py:90-198 | the same holds over any playable sequence of actions |
| ColonyProperties.FirstSol | Martian_Game.py:53-165 | the first one-day SELL turn of a new game at 65000 gives energy 690, oxygen 805, ten colonists, cash 40048.75 and a sale entry of 48.75 |

## Left out

- Fetching the market price over the network: the price is a parameter; only the fallback formula is modelled (`MarketPrice`).
- Random numbers: the death count is one entry of a parameter sequence per turn, each in [1, 3]; the fallback jitter is a parameter in [-2000, 2000].
- The page layout, styles, metrics, tabs, buttons, balloons, reruns and stops: presentation only. Refusals are returned as an `Outcome` instead of an on-screen error.
- The graph drawing of the technology tree: presentation only.
- Restarting the game (clearing the session): it discards the state; a new `Colony` starts from `Initial()`.
- The text of the log lines and the integer formatting of revenue: each entry keeps its Sol and a tagged message.
- Floating-point rounding: amounts are exact reals.
- The buttons that disable researching an owned or locked technology, and the halt of all controls once the game is lost or won: these are UI rules, so the rule functions do not enforce them.
- The strategy is a two-valued type. The game compares a string with "SELL", and any other string behaves like HODL.
- ColonyRules.Reassign: assumes the workforce slider always returns a value in [0, pop]. The slider starts at the current engineer count. After a death that count can exceed its maximum `pop`, and what the widget then returns is up to the UI library.
- The workforce split runs on every page render, not only when the slider moves: each render re-applies it with the slider's current value, before any button handler (such as `advance_time`) runs. The model treats `Reassign` as an action that may be taken or skipped, so its sessions include the game's real ones. In the game a batch therefore always starts from `engineers + scientists == pop`; the weaker `>=` of `Inv` is needed only inside a batch of several days, or between actions the model lets follow each other directly.
