/** The game state as the game keeps it: one object whose fields the turn loop and
    the player actions update in place. Each method is proved to leave the object in
    the state the matching rule of ColonyRules computes. */
module ColonyGame {
  import opened ColonyRules

  class Colony {
    var day: nat
    var cash: real
    var oxygen: real
    var energy: real
    var pop: nat
    var engineers: nat
    var scientists: nat
    var buildings: Counts
    var techs: seq<Tech>
    var logs: seq<Entry>
    var gameOver: bool
    var gameWon: bool
    var landCapacity: int
    var btcPrice: real

    /** The fields as one value. */
    function Snapshot(): Ledger
      reads this
    {
      Ledger(day, cash, oxygen, energy, pop, engineers, scientists, buildings, techs,
             logs, gameOver, gameWon, landCapacity, btcPrice)
    }

    /** A new colony on its first Sol. */
    constructor ()
      ensures Snapshot() == Initial()
    {
      day, cash, oxygen, energy := 1, 40000.0, 800.0, 500.0;
      pop, engineers, scientists := 10, 5, 5;
      buildings := Counts(2, 1, 1, 1);
      techs := [];
      logs := [Entry(1, ColonyEstablished)];
      gameOver, gameWon := false, false;
      landCapacity, btcPrice := 30, 65000.0;
    }

    /** Appends a message stamped with the current Sol. */
    method LogEvent(msg: Message)
      modifies this
      ensures Snapshot() == old(Snapshot()).(logs := old(logs) + [Entry(day, msg)])
    {
      logs := logs + [Entry(day, msg)];
    }

    /** Runs up to `days` turns at market price `price`; `deaths[i]` is the random
        death count drawn if the colony suffocates on turn i. */
    method AdvanceTime(days: int, strategy: Strategy, price: real, deaths: seq<int>)
      requires days <= |deaths| && DeathCounts(deaths)
      modifies this
      ensures Snapshot() == Advance(old(Snapshot()), days, strategy, price, deaths)
    {
      if gameOver || gameWon {
        return;
      }
      btcPrice := price;
      ghost var start := Snapshot();
      var single := days == 1;
      var i: nat := 0;
      while i < days
        invariant !gameOver && !gameWon
        invariant RunFrom(Snapshot(), days, strategy, deaths, single, i)
               == RunFrom(start, days, strategy, deaths, single, 0)
        decreases days - i
      {
        PlayTurn(strategy, deaths[i], single);
        if pop == 0 {
          break;
        }
        i := i + 1;
      }
    }

    /** One pass of the turn loop's body, up to and including the loss check. */
    method PlayTurn(strategy: Strategy, death: int, single: bool)
      requires 1 <= death <= 3
      requires !gameOver && !gameWon
      modifies this
      ensures Snapshot() == Turn(old(Snapshot()), strategy, death, single)
      ensures gameOver <==> pop == 0
      ensures !gameWon
    {
      day := day + 1;

      // 1. multipliers
      var solarMult := SolarMult(techs);
      var cryptoMult := CryptoMult(techs);
      var nuclearPower := NuclearPower(techs);

      // 2-3. energy grid and grid check
      var hasPower := UpdateGrid(solarMult, nuclearPower, single);

      // 4. production
      var computeGenerated := ComputeGenerated(buildings.dataCenter, scientists, hasPower);
      var o2Generated := OxygenGenerated(buildings.scrubber, hasPower);

      // 5. life support
      SupportLife(o2Generated, death, single);

      if pop == 0 {
        gameOver := true;
        LogEvent(MissionFailed);
        return;
      }

      // 6. economics
      if strategy == Sell {
        SellCompute(computeGenerated, cryptoMult, single);
      }
    }

    /** Steps 2-3 of a turn: produce and drain energy, clamp the store, and report
        whether the grid still has power. */
    method UpdateGrid(solarMult: real, nuclearPower: real, single: bool) returns (hasPower: bool)
      requires solarMult == SolarMult(techs) && nuclearPower == NuclearPower(techs)
      modifies this
      ensures Snapshot() == GridPhase(old(Snapshot()), single)
      ensures hasPower <==> energy > 0.0
    {
      var needed := buildings.solar;
      var efficiency := Efficiency(needed, engineers);
      var solarOutput := buildings.solar as real * 150.0 * efficiency * solarMult;
      var totalEnergyProd := solarOutput + nuclearPower;
      var netEnergy := totalEnergyProd - EnergyDrain(buildings);
      energy := ClampEnergy(energy + netEnergy);
      hasPower := true;
      if energy <= 0.0 {
        hasPower := false;
        if single {
          LogEvent(Blackout);
        }
      }
    }

    /** Step 5 of a turn: breathe, and lose colonists when the oxygen runs out. */
    method SupportLife(o2Generated: real, death: int, single: bool)
      requires 1 <= death <= 3
      requires o2Generated == OxygenGenerated(buildings.scrubber, energy > 0.0)
      modifies this
      ensures Snapshot() == LifePhase(old(Snapshot()), death, single)
    {
      var popConsumption := pop as real * 2.0;
      oxygen := oxygen + (o2Generated - popConsumption);
      if oxygen <= 0.0 {
        oxygen := 0.0;
        pop := Survivors(pop, death);
        if single {
          LogEvent(Suffocated(death));
        }
      }
    }

    /** Step 6 of a turn under SELL: turn the compute into cash at the batch price. */
    method SellCompute(computeGenerated: real, cryptoMult: real, single: bool)
      requires computeGenerated == ComputeGenerated(buildings.dataCenter, scientists, energy > 0.0)
      requires cryptoMult == CryptoMult(techs)
      modifies this
      ensures Snapshot() == SellPhase(old(Snapshot()), single)
    {
      var revenue := Revenue(computeGenerated, btcPrice, cryptoMult);
      cash := cash + revenue;
      if single {
        LogEvent(Sold(revenue));
      }
    }

    /** Buys one building of kind `b` if there is land and money for it. */
    method BuyBuilding(b: Building) returns (outcome: Outcome)
      modifies this
      ensures (Snapshot(), outcome) == Buy(old(Snapshot()), b)
    {
      var cost := BuildingCost(b);
      var totalBuildings := buildings.Total();
      if totalBuildings >= landCapacity {
        return Failure(NotEnoughLand);
      }
      if cash >= cost {
        cash := cash - cost;
        buildings := buildings.Inc(b);
        outcome := Success;
      } else {
        outcome := Failure(InsufficientFunds);
      }
    }

    /** Researches `t` if its prerequisite is owned and there is money for it. */
    method ResearchTech(t: Tech) returns (outcome: Outcome)
      modifies this
      ensures (Snapshot(), outcome) == Research(old(Snapshot()), t)
    {
      var parent := Parent(t);
      if parent.Some? && parent.value !in techs {
        return Failure(PrerequisitesNotMet);
      }
      if cash >= TechCost(t) {
        cash := cash - TechCost(t);
        techs := techs + [t];
        if t == Terraforming {
          gameWon := true;
        }
        outcome := Success;
      } else {
        outcome := Failure(InsufficientFunds);
      }
    }

    /** The workforce slider: `eng` engineers, everyone else a scientist. */
    method AssignEngineers(eng: int)
      requires 0 <= eng <= pop
      modifies this
      ensures Snapshot() == Reassign(old(Snapshot()), eng)
    {
      var totalPop := pop;
      engineers := eng;
      scientists := totalPop - eng;
    }
  }
}
