/** What the rules of ColonyRules guarantee: per turn, per batch of turns, per player
    action, and over any sequence of player actions. */
module ColonyProperties {
  import opened ColonyRules

  // ---------------------------------------------------------------------------
  // Static tables
  // ---------------------------------------------------------------------------

  /** The technology tree is a forest: a parent is strictly closer to a root. */
  lemma ParentIsShallower(t: Tech)
    ensures Parent(t).Some? ==> Depth(Parent(t).value) < Depth(t)
    ensures Parent(t).None? <==> Depth(t) == 0
    ensures Parent(t).None? <==> t == PerovskiteCells
  {
  }

  /** Terraforming, the one victory technology, is reachable: researching the
      Perovskite cells, the reactor and then terraforming respects every prerequisite
      and wins the game, at a total cost of 350000. */
  lemma VictoryRoute(s: Ledger)
    requires s.cash >= 350000.0
    ensures var r1 := Research(s, PerovskiteCells);
            var r2 := Research(r1.0, NuclearReactor);
            var r3 := Research(r2.0, Terraforming);
            && r1.1 == Success && r2.1 == Success && r3.1 == Success
            && r3.0.gameWon
            && r3.0.cash == s.cash - 350000.0
            && r3.0.techs == s.techs + [PerovskiteCells, NuclearReactor, Terraforming]
  {
  }

  // ---------------------------------------------------------------------------
  // One turn
  // ---------------------------------------------------------------------------

  /** The grid store after a turn is the clamped sum of the old store and the net
      production. */
  lemma TurnEnergy(s: Ledger, strategy: Strategy, death: int, single: bool)
    requires 1 <= death <= 3
    ensures Turn(s, strategy, death, single).energy
         == ClampEnergy(s.energy + (EnergyProduction(s) - EnergyDrain(s.buildings)))
  {
  }

  /** Oxygen after a turn: the balance of production (zero without power) and two
      units per colonist. A non-positive balance resets oxygen to zero and kills
      `death` colonists (floored at zero); otherwise nobody dies. */
  lemma TurnOxygen(s: Ledger, strategy: Strategy, death: int, single: bool)
    requires 1 <= death <= 3
    ensures var t := Turn(s, strategy, death, single);
            var balance := s.oxygen + (OxygenGenerated(s.buildings.scrubber, t.energy > 0.0)
                                       - s.pop as real * 2.0);
            && (balance <= 0.0 ==> t.oxygen == 0.0 && t.pop == Survivors(s.pop, death))
            && (balance > 0.0 ==> t.oxygen == balance && t.pop == s.pop)
  {
  }

  /** A blackout stops compute and oxygen production: no cash is earned and the
      colonists only breathe. */
  lemma TurnBlackout(s: Ledger, strategy: Strategy, death: int, single: bool)
    requires 1 <= death <= 3
    ensures var t := Turn(s, strategy, death, single);
            t.energy == 0.0 ==>
              && t.cash == s.cash
              && (s.oxygen - s.pop as real * 2.0 <= 0.0 ==> t.oxygen == 0.0)
              && (s.oxygen - s.pop as real * 2.0 > 0.0 ==> t.oxygen == s.oxygen - s.pop as real * 2.0)
  {
  }

  /** Population never grows and falls by at most three colonists a turn, and only
      on a turn that ends with no oxygen. */
  lemma TurnPopulation(s: Ledger, strategy: Strategy, death: int, single: bool)
    requires 1 <= death <= 3
    ensures var t := Turn(s, strategy, death, single);
            && s.pop - 3 <= t.pop <= s.pop
            && (t.pop < s.pop ==> t.oxygen == 0.0)
  {
  }

  /** The loss check: the game is lost exactly when the population is zero after the
      death step; that turn logs the failure and skips the economics. */
  lemma TurnLoss(s: Ledger, strategy: Strategy, death: int, single: bool)
    requires 1 <= death <= 3
    ensures var t := Turn(s, strategy, death, single);
            && (t.gameOver <==> s.gameOver || t.pop == 0)
            && (t.pop == 0 ==> t.cash == s.cash && LastEntry(t.logs, Entry(t.day, MissionFailed)))
  {
  }

  /** HODL never changes cash; SELL at a non-negative price never lowers it. */
  lemma TurnCash(s: Ledger, strategy: Strategy, death: int, single: bool)
    requires 1 <= death <= 3
    ensures var t := Turn(s, strategy, death, single);
            && (strategy == Hodl ==> t.cash == s.cash)
            && (s.btcPrice >= 0.0 ==> t.cash >= s.cash)
  {
  }

  /** In a batch of more than one day only the loss is logged. */
  lemma TurnLogs(s: Ledger, strategy: Strategy, death: int, single: bool)
    requires 1 <= death <= 3
    ensures var t := Turn(s, strategy, death, single);
            && (!single && t.pop > 0 ==> t.logs == s.logs)
            && (!single && t.pop == 0 ==> t.logs == s.logs + [Entry(t.day, MissionFailed)])
  {
  }

  /** The death step removes colonists without taking them off the workforce, so a
      split that matched the population no longer does after a death. */
  lemma TurnWorkforce(s: Ledger, strategy: Strategy, death: int, single: bool)
    requires 1 <= death <= 3
    ensures var t := Turn(s, strategy, death, single);
            && t.engineers == s.engineers && t.scientists == s.scientists
            && (s.engineers + s.scientists == s.pop && t.pop < s.pop ==> t.engineers + t.scientists > t.pop)
  {
  }

  /** A turn keeps the colony invariant. */
  lemma TurnPreservesInv(s: Ledger, strategy: Strategy, death: int, single: bool)
    requires 1 <= death <= 3
    requires Inv(s)
    ensures Inv(Turn(s, strategy, death, single))
  {
  }

  // ---------------------------------------------------------------------------
  // A batch of turns
  // ---------------------------------------------------------------------------

  /** Once a turn has run, energy lies in [0, 20000] and oxygen is non-negative. */
  lemma {:induction false} RunFromBounds(s: Ledger, days: int, strategy: Strategy, deaths: seq<int>, single: bool, i: nat)
    requires days <= |deaths| && DeathCounts(deaths)
    requires i < days
    ensures var r := RunFrom(s, days, strategy, deaths, single, i);
            0.0 <= r.energy <= MaxEnergy && r.oxygen >= 0.0
    decreases days - i
  {
    var t := Turn(s, strategy, deaths[i], single);
    if t.pop != 0 && i + 1 < days {
      RunFromBounds(t, days, strategy, deaths, single, i + 1);
    }
  }

  /** The Sol counter moves by the number of turns begun: all of them unless the
      colony was lost, and it is lost on the last turn begun. */
  lemma {:induction false} RunFromDays(s: Ledger, days: int, strategy: Strategy, deaths: seq<int>, single: bool, i: nat)
    requires days <= |deaths| && DeathCounts(deaths)
    ensures var r := RunFrom(s, days, strategy, deaths, single, i);
            var n := if days > i then days - i else 0;
            && s.day <= r.day <= s.day + n
            && (r.pop > 0 ==> r.day == s.day + n)
            && (n > 0 ==> r.day > s.day)
    decreases days - i
  {
    if i < days {
      var t := Turn(s, strategy, deaths[i], single);
      if t.pop != 0 {
        RunFromDays(t, days, strategy, deaths, single, i + 1);
      }
    }
  }

  /** Population never grows, and falls by at most three per turn run. */
  lemma {:induction false} RunFromPopulation(s: Ledger, days: int, strategy: Strategy, deaths: seq<int>, single: bool, i: nat)
    requires days <= |deaths| && DeathCounts(deaths)
    ensures var r := RunFrom(s, days, strategy, deaths, single, i);
            r.pop <= s.pop && s.pop <= r.pop + 3 * (r.day - s.day)
    decreases days - i
  {
    if i < days {
      var t := Turn(s, strategy, deaths[i], single);
      TurnPopulation(s, strategy, deaths[i], single);
      if t.pop != 0 {
        RunFromPopulation(t, days, strategy, deaths, single, i + 1);
        RunFromDays(t, days, strategy, deaths, single, i + 1);
      }
    }
  }

  /** HODL leaves cash alone; SELL at a non-negative price never lowers it. */
  lemma {:induction false} RunFromCash(s: Ledger, days: int, strategy: Strategy, deaths: seq<int>, single: bool, i: nat)
    requires days <= |deaths| && DeathCounts(deaths)
    ensures var r := RunFrom(s, days, strategy, deaths, single, i);
            && (strategy == Hodl ==> r.cash == s.cash)
            && (s.btcPrice >= 0.0 ==> r.cash >= s.cash)
    decreases days - i
  {
    if i < days {
      var t := Turn(s, strategy, deaths[i], single);
      TurnCash(s, strategy, deaths[i], single);
      if t.pop != 0 {
        RunFromCash(t, days, strategy, deaths, single, i + 1);
      }
    }
  }

  /** The log only grows. In a batch of more than one day the only entry added is the
      loss, added exactly when the colony dies; the loss is always the last entry. */
  lemma {:induction false} RunFromLogs(s: Ledger, days: int, strategy: Strategy, deaths: seq<int>, single: bool, i: nat)
    requires days <= |deaths| && DeathCounts(deaths)
    requires s.pop > 0
    ensures var r := RunFrom(s, days, strategy, deaths, single, i);
            && s.logs <= r.logs
            && (r.pop == 0 ==> r.gameOver && LastEntry(r.logs, Entry(r.day, MissionFailed)))
            && (!single && r.pop > 0 ==> r.logs == s.logs)
            && (!single && r.pop == 0 ==> r.logs == s.logs + [Entry(r.day, MissionFailed)])
    decreases days - i
  {
    if i < days {
      var t := Turn(s, strategy, deaths[i], single);
      TurnLoss(s, strategy, deaths[i], single);
      TurnLogs(s, strategy, deaths[i], single);
      if t.pop != 0 {
        RunFromLogs(t, days, strategy, deaths, single, i + 1);
      }
    }
  }

  /** Turns keep the colony invariant. */
  lemma {:induction false} RunFromPreservesInv(s: Ledger, days: int, strategy: Strategy, deaths: seq<int>, single: bool, i: nat)
    requires days <= |deaths| && DeathCounts(deaths)
    requires Inv(s)
    ensures Inv(RunFrom(s, days, strategy, deaths, single, i))
    decreases days - i
  {
    if i < days {
      var t := Turn(s, strategy, deaths[i], single);
      TurnPreservesInv(s, strategy, deaths[i], single);
      if t.pop != 0 {
        RunFromPreservesInv(t, days, strategy, deaths, single, i + 1);
      }
    }
  }

  /** After a batch of at least one turn on a running game, energy lies in
      [0, 20000] and oxygen is non-negative. */
  lemma AdvanceBounds(s: Ledger, days: int, strategy: Strategy, price: real, deaths: seq<int>)
    requires days <= |deaths| && DeathCounts(deaths)
    requires !s.gameOver && !s.gameWon && days >= 1
    ensures var r := Advance(s, days, strategy, price, deaths);
            0.0 <= r.energy <= MaxEnergy && r.oxygen >= 0.0
  {
    RunFromBounds(s.(btcPrice := price), days, strategy, deaths, days == 1, 0);
  }

  /** A batch on a running game advances the Sol counter by exactly the number of
      turns begun: `days` of them, or fewer when the colony was lost on the last. */
  lemma AdvanceDays(s: Ledger, days: int, strategy: Strategy, price: real, deaths: seq<int>)
    requires days <= |deaths| && DeathCounts(deaths)
    requires !s.gameOver && !s.gameWon && s.pop > 0
    ensures var r := Advance(s, days, strategy, price, deaths);
            var n := if days > 0 then days else 0;
            && s.day <= r.day <= s.day + n
            && (r.day < s.day + n ==> r.gameOver && r.pop == 0)
            && (days > 0 ==> r.day > s.day)
  {
    RunFromDays(s.(btcPrice := price), days, strategy, deaths, days == 1, 0);
    RunFromLogs(s.(btcPrice := price), days, strategy, deaths, days == 1, 0);
  }

  /** Population never grows over a batch and falls by at most three per Sol. */
  lemma AdvancePopulation(s: Ledger, days: int, strategy: Strategy, price: real, deaths: seq<int>)
    requires days <= |deaths| && DeathCounts(deaths)
    ensures var r := Advance(s, days, strategy, price, deaths);
            r.pop <= s.pop && s.pop <= r.pop + 3 * (r.day - s.day)
  {
    if !s.gameOver && !s.gameWon {
      RunFromPopulation(s.(btcPrice := price), days, strategy, deaths, days == 1, 0);
    }
  }

  /** HODL leaves cash unchanged over a batch; SELL at a non-negative price never
      lowers it. */
  lemma AdvanceCash(s: Ledger, days: int, strategy: Strategy, price: real, deaths: seq<int>)
    requires days <= |deaths| && DeathCounts(deaths)
    ensures var r := Advance(s, days, strategy, price, deaths);
            && (strategy == Hodl ==> r.cash == s.cash)
            && (price >= 0.0 ==> r.cash >= s.cash)
  {
    if !s.gameOver && !s.gameWon {
      RunFromCash(s.(btcPrice := price), days, strategy, deaths, days == 1, 0);
    }
  }

  /** Over a batch on a running game the log only grows; a colony that dies is
      marked lost with the failure as the last entry; a batch of more than one day
      logs nothing else. */
  lemma AdvanceLogs(s: Ledger, days: int, strategy: Strategy, price: real, deaths: seq<int>)
    requires days <= |deaths| && DeathCounts(deaths)
    requires !s.gameOver && !s.gameWon && s.pop > 0
    ensures var r := Advance(s, days, strategy, price, deaths);
            && s.logs <= r.logs
            && (r.pop == 0 ==> r.gameOver && LastEntry(r.logs, Entry(r.day, MissionFailed)))
            && (days != 1 && r.pop > 0 ==> r.logs == s.logs)
            && (days != 1 && r.pop == 0 ==> r.logs == s.logs + [Entry(r.day, MissionFailed)])
  {
    RunFromLogs(s.(btcPrice := price), days, strategy, deaths, days == 1, 0);
  }

  /** A batch keeps the colony invariant when the market price is non-negative. */
  lemma AdvancePreservesInv(s: Ledger, days: int, strategy: Strategy, price: real, deaths: seq<int>)
    requires days <= |deaths| && DeathCounts(deaths)
    requires Inv(s) && price >= 0.0
    ensures Inv(Advance(s, days, strategy, price, deaths))
  {
    if !s.gameOver && !s.gameWon {
      RunFromPreservesInv(s.(btcPrice := price), days, strategy, deaths, days == 1, 0);
    }
  }

  // ---------------------------------------------------------------------------
  // Player actions
  // ---------------------------------------------------------------------------

  lemma BuyPreservesInv(s: Ledger, b: Building)
    requires Inv(s)
    ensures Inv(Buy(s, b).0)
  {
  }

  /** Appending a technology whose prerequisite is owned keeps the owned list closed
      under prerequisites. */
  lemma PrereqClosedAppend(techs: seq<Tech>, t: Tech)
    requires PrereqClosed(techs) && Unlockable(t, techs)
    ensures PrereqClosed(techs + [t])
  {
    var ts := techs + [t];
    forall i | 0 <= i < |ts|
      ensures Unlockable(ts[i], ts[..i])
    {
      if i < |techs| {
        assert ts[..i] == techs[..i];
      } else {
        assert ts[..i] == techs;
      }
    }
  }

  lemma ResearchPreservesInv(s: Ledger, t: Tech)
    requires Inv(s)
    ensures Inv(Research(s, t).0)
  {
  }

  /** Researching an owned technology is not refused: in a colony whose owned list
      is closed under prerequisites it is paid for again and listed twice. */
  lemma ResearchRepeat(s: Ledger, t: Tech)
    requires PrereqClosed(s.techs) && t in s.techs && s.cash >= TechCost(t)
    ensures var r := Research(s, t);
            && r.1 == Success && r.0.cash == s.cash - TechCost(t)
            && r.0.techs == s.techs + [t] && |r.0.techs| == |s.techs| + 1
  {
  }

  lemma ReassignPreservesInv(s: Ledger, engineers: int)
    requires Inv(s) && 0 <= engineers <= s.pop
    ensures Inv(Reassign(s, engineers))
  {
  }

  // ---------------------------------------------------------------------------
  // Sessions
  // ---------------------------------------------------------------------------

  lemma ApplyPreservesInv(s: Ledger, a: Action)
    requires Inv(s) && Admissible(s, a)
    ensures Inv(Apply(s, a))
  {
    match a
    case Construct(b) => BuyPreservesInv(s, b);
    case Study(t) => ResearchPreservesInv(s, t);
    case AssignEngineers(n) => ReassignPreservesInv(s, n);
    case Sleep(days, strategy, price, deaths) => AdvancePreservesInv(s, days, strategy, price, deaths);
  }

  /** Every playable sequence of actions keeps the colony invariant. */
  lemma {:induction false} SessionPreservesInv(s: Ledger, acts: seq<Action>)
    requires Inv(s) && Playable(s, acts)
    ensures Inv(Session(s, acts))
    decreases |acts|
  {
    if acts != [] {
      ApplyPreservesInv(s, acts[0]);
      SessionPreservesInv(Apply(s, acts[0]), acts[1..]);
    }
  }

  /** What no single action ever takes back: owned technologies, the terminal
      states, elapsed Sols, buildings; and colonists are never added. */
  lemma ApplyMonotone(s: Ledger, a: Action)
    requires Admissible(s, a)
    ensures var r := Apply(s, a);
            && s.techs <= r.techs
            && (s.gameOver ==> r.gameOver)
            && (s.gameWon ==> r.gameWon)
            && s.day <= r.day
            && r.pop <= s.pop
            && s.buildings.Total() <= r.buildings.Total()
            && r.landCapacity == s.landCapacity
  {
    match a
    case Construct(b) =>
    case Study(t) =>
    case AssignEngineers(n) =>
    case Sleep(days, strategy, price, deaths) =>
      AdvancePopulation(s, days, strategy, price, deaths);
      if !s.gameOver && !s.gameWon {
        var s' := s.(btcPrice := price);
        RunFromFrame(s', days, strategy, deaths, days == 1, 0);
        RunFromDays(s', days, strategy, deaths, days == 1, 0);
      }
  }

  /** Over any playable sequence of actions technologies are never revoked, a lost
      or won game stays so, Sols never go back, buildings are never removed and the
      population never grows. */
  lemma {:induction false} SessionMonotone(s: Ledger, acts: seq<Action>)
    requires Playable(s, acts)
    ensures var r := Session(s, acts);
            && s.techs <= r.techs
            && (s.gameOver ==> r.gameOver)
            && (s.gameWon ==> r.gameWon)
            && s.day <= r.day
            && r.pop <= s.pop
            && s.buildings.Total() <= r.buildings.Total()
            && r.landCapacity == s.landCapacity
    decreases |acts|
  {
    if acts != [] {
      var m := Apply(s, acts[0]);
      ApplyMonotone(s, acts[0]);
      SessionMonotone(m, acts[1..]);
    }
  }

  // ---------------------------------------------------------------------------
  // A worked turn
  // ---------------------------------------------------------------------------

  /** The first single-day SELL turn of a new game at the default price: with two
      fully staffed arrays the grid gains 360 - 170 units, the scrubber out-breathes
      the ten colonists by 5 units, and 75 compute units sell for 48.75. */
  lemma FirstSol(death: int)
    requires 1 <= death <= 3
    ensures var t := Turn(Initial(), Sell, death, true);
            && t.day == 2
            && t.energy == 690.0
            && t.oxygen == 805.0
            && t.pop == 10
            && t.cash == 40048.75
            && t.logs == Initial().logs + [Entry(2, Sold(48.75))]
  {
  }
}
