/** The rule engine of the Mars Tycoon colony simulation, as pure functions over a
    value-level ledger. The class in colony_game.dfy mutates its fields the way the
    game does and is proved to agree with these functions. */
module ColonyRules {

  datatype Option<T> = None | Some(value: T)

  // ---------------------------------------------------------------------------
  // Static tables
  // ---------------------------------------------------------------------------

  datatype Building = SolarArray | DataCenter | O2Scrubber | HabModule

  /** Purchase price of one building (the BUILDINGS table). */
  function BuildingCost(b: Building): (c: real)
    ensures 5000.0 <= c <= 15000.0
  {
    match b
    case SolarArray => 5000.0
    case DataCenter => 15000.0
    case O2Scrubber => 8000.0
    case HabModule => 10000.0
  }

  /** How many buildings of each kind the colony owns. */
  datatype Counts = Counts(solar: nat, dataCenter: nat, scrubber: nat, hab: nat)
  {
    function Get(b: Building): nat {
      match b
      case SolarArray => solar
      case DataCenter => dataCenter
      case O2Scrubber => scrubber
      case HabModule => hab
    }

    /** The land the buildings occupy: one plot per building of any kind. */
    function Total(): (n: nat)
      ensures forall b :: Get(b) <= n
      ensures n == 0 <==> forall b :: Get(b) == 0
    {
      assert Get(SolarArray) == solar && Get(DataCenter) == dataCenter;
      assert Get(O2Scrubber) == scrubber && Get(HabModule) == hab;
      solar + dataCenter + scrubber + hab
    }

    /** One more building of kind `b`, every other count as it was. */
    function Inc(b: Building): (c: Counts)
      ensures c.Get(b) == Get(b) + 1
      ensures forall o :: o != b ==> c.Get(o) == Get(o)
      ensures c.Total() == Total() + 1
    {
      match b
      case SolarArray => this.(solar := solar + 1)
      case DataCenter => this.(dataCenter := dataCenter + 1)
      case O2Scrubber => this.(scrubber := scrubber + 1)
      case HabModule => this.(hab := hab + 1)
    }
  }

  datatype Tech = PerovskiteCells | QuantumAsics | NuclearReactor | Terraforming

  /** Research price of a technology (the TECH_TREE table). */
  function TechCost(t: Tech): (c: real)
    ensures c >= 25000.0
  {
    match t
    case PerovskiteCells => 25000.0
    case QuantumAsics => 40000.0
    case NuclearReactor => 75000.0
    case Terraforming => 250000.0
  }

  /** The single prerequisite of a technology, if any (the TECH_TREE table). */
  function Parent(t: Tech): (p: Option<Tech>)
    ensures p.Some? ==> p.value != t && TechCost(p.value) < TechCost(t)
  {
    match t
    case PerovskiteCells => None
    case QuantumAsics => Some(PerovskiteCells)
    case NuclearReactor => Some(PerovskiteCells)
    case Terraforming => Some(NuclearReactor)
  }

  /** Distance of a technology from the root of the tree. */
  function Depth(t: Tech): nat {
    match t
    case PerovskiteCells => 0
    case QuantumAsics => 1
    case NuclearReactor => 1
    case Terraforming => 2
  }

  /** A technology may be researched when it has no parent or its parent is owned. */
  predicate Unlockable(t: Tech, techs: seq<Tech>): (u: bool)
    ensures t == PerovskiteCells ==> u
    ensures t == QuantumAsics || t == NuclearReactor ==> (u <==> PerovskiteCells in techs)
    ensures t == Terraforming ==> (u <==> NuclearReactor in techs)
  {
    Parent(t).None? || Parent(t).value in techs
  }

  /** Every owned technology was researched after its parent. */
  predicate PrereqClosed(techs: seq<Tech>) {
    forall i :: 0 <= i < |techs| ==> Unlockable(techs[i], techs[..i])
  }

  // ---------------------------------------------------------------------------
  // Game state
  // ---------------------------------------------------------------------------

  /** What a log line reports; the "Sol N:" prefix is the entry's `sol`. */
  datatype Message =
    | ColonyEstablished
    | Blackout
    | Suffocated(deaths: int)
    | Sold(revenue: real)
    | MissionFailed

  datatype Entry = Entry(sol: int, msg: Message)

  /** The log is non-empty and ends with `e` (the entry the game shows live). */
  predicate LastEntry(logs: seq<Entry>, e: Entry) {
    |logs| > 0 && logs[|logs| - 1] == e
  }

  datatype Strategy = Sell | Hodl

  /** The game-state record. */
  datatype Ledger = Ledger(
    day: nat,
    cash: real,
    oxygen: real,
    energy: real,
    pop: nat,
    engineers: nat,
    scientists: nat,
    buildings: Counts,
    techs: seq<Tech>,
    logs: seq<Entry>,
    gameOver: bool,
    gameWon: bool,
    landCapacity: int,
    btcPrice: real)

  const MaxEnergy: real := 20000.0

  /** The state a new game starts in. */
  function Initial(): (s: Ledger)
    ensures Inv(s)
    ensures s.engineers + s.scientists == s.pop
  {
    Ledger(1, 40000.0, 800.0, 500.0, 10, 5, 5, Counts(2, 1, 1, 1), [],
           [Entry(1, ColonyEstablished)], false, false, 30, 65000.0)
  }

  /** The colony invariant kept by every operation when market prices are non-negative. */
  predicate Inv(s: Ledger) {
    && s.day >= 1
    && 0.0 <= s.energy <= MaxEnergy
    && s.oxygen >= 0.0
    && s.cash >= 0.0
    && s.btcPrice >= 0.0
    && s.buildings.Total() <= s.landCapacity
    && s.engineers + s.scientists >= s.pop
    && (s.gameOver <==> s.pop == 0)
    && (s.gameWon <==> Terraforming in s.techs)
    && PrereqClosed(s.techs)
  }

  // ---------------------------------------------------------------------------
  // Market price
  // ---------------------------------------------------------------------------

  /** The price used for a batch of turns: the fetched quote, or, when the fetch
      failed, 65000 shifted by the random jitter in [-2000, 2000]. */
  function MarketPrice(feed: Option<real>, jitter: int): (p: real)
    requires -2000 <= jitter <= 2000
    ensures feed.Some? ==> p == feed.value
    ensures feed.None? ==> 63000.0 <= p <= 67000.0
  {
    match feed
    case Some(price) => price
    case None => 65000.0 + jitter as real
  }

  // ---------------------------------------------------------------------------
  // One turn, step by step
  // ---------------------------------------------------------------------------

  /** Step 1: the three technology effects. */
  function SolarMult(techs: seq<Tech>): (m: real)
    ensures m == 1.0 || m == 1.5
    ensures m == 1.5 <==> PerovskiteCells in techs
  {
    if PerovskiteCells in techs then 1.5 else 1.0
  }

  function CryptoMult(techs: seq<Tech>): (m: real)
    ensures m == 1.0 || m == 1.5
    ensures m == 1.5 <==> QuantumAsics in techs
  {
    if QuantumAsics in techs then 1.5 else 1.0
  }

  function NuclearPower(techs: seq<Tech>): (p: real)
    ensures p == 0.0 || p == 2000.0
    ensures p == 2000.0 <==> NuclearReactor in techs
  {
    if NuclearReactor in techs then 2000.0 else 0.0
  }

  function Min(x: real, y: real): real {
    if x <= y then x else y
  }

  /** Step 2: solar efficiency from the engineers' coverage of the arrays. */
  function Efficiency(solarArrays: nat, engineers: nat): (e: real)
    ensures 0.5 <= e <= 1.2
    ensures solarArrays == 0 ==> e == 1.0
    ensures solarArrays > 0 ==> (e == 1.2 <==> engineers >= solarArrays)
    ensures solarArrays > 0 && engineers == 0 ==> e == 0.5
  {
    if solarArrays > 0 then
      var coverage := Min(1.0, engineers as real / solarArrays as real);
      0.5 + 0.7 * coverage
    else
      1.0
  }

  /** Step 2: solar output plus the reactor's flat bonus. */
  function EnergyProduction(s: Ledger): (p: real)
    ensures p >= NuclearPower(s.techs) >= 0.0
    ensures s.buildings.solar == 0 ==> p == NuclearPower(s.techs)
  {
    var efficiency := Efficiency(s.buildings.solar, s.engineers);
    var solarOutput := s.buildings.solar as real * 150.0 * efficiency * SolarMult(s.techs);
    assert solarOutput >= 0.0 by {
      assert s.buildings.solar as real * 150.0 >= 0.0;
      assert (s.buildings.solar as real * 150.0) * efficiency >= 0.0;
    }
    solarOutput + NuclearPower(s.techs)
  }

  /** Step 2: what the consuming buildings draw from the grid each turn. */
  function EnergyDrain(b: Counts): (d: real)
    ensures d >= 0.0
    ensures d == 0.0 <==> b.dataCenter == 0 && b.scrubber == 0 && b.hab == 0
  {
    b.dataCenter as real * 100.0 + b.scrubber as real * 50.0 + b.hab as real * 20.0
  }

  /** Step 2: the grid store is kept within [0, 20000]. */
  function ClampEnergy(x: real): (e: real)
    ensures 0.0 <= e <= MaxEnergy
    ensures 0.0 <= x <= MaxEnergy ==> e == x
    ensures x < 0.0 ==> e == 0.0
    ensures x > MaxEnergy ==> e == MaxEnergy
  {
    if x < 0.0 then 0.0 else Min(MaxEnergy, x)
  }

  /** Step 4: compute mined by the data centres, boosted by scientists, gated on power. */
  function ComputeGenerated(dataCenters: nat, scientists: nat, hasPower: bool): (c: real)
    ensures c >= 0.0
    ensures !hasPower ==> c == 0.0
    ensures hasPower ==> c >= dataCenters as real * 50.0
  {
    var sciBonus := 1.0 + scientists as real * 0.1;
    var opsMult := if hasPower then 1.0 else 0.0;
    assert (dataCenters as real * 50.0) * sciBonus >= dataCenters as real * 50.0;
    dataCenters as real * 50.0 * sciBonus * opsMult
  }

  /** Step 4: oxygen made by the scrubbers, gated on power. */
  function OxygenGenerated(scrubbers: nat, hasPower: bool): (o: real)
    ensures o >= 0.0
    ensures !hasPower ==> o == 0.0
    ensures hasPower ==> o == scrubbers as real * 25.0
  {
    scrubbers as real * 25.0 * (if hasPower then 1.0 else 0.0)
  }

  /** Step 6: cash earned by selling this turn's compute at the batch price. */
  function Revenue(compute: real, price: real, cryptoMult: real): (r: real)
    ensures compute >= 0.0 && price >= 0.0 && cryptoMult >= 0.0 ==> r >= 0.0
    ensures compute == 0.0 || price == 0.0 || cryptoMult == 0.0 ==> r == 0.0
  {
    var perUnit := price / 100000000.0;
    assert price >= 0.0 ==> perUnit >= 0.0;
    assert price == 0.0 ==> perUnit == 0.0;
    compute * perUnit * 1000.0 * cryptoMult
  }

  /** Survivors of a suffocation event: never fewer than zero. */
  function Survivors(pop: nat, deaths: int): (n: nat)
    ensures deaths >= 0 ==> n <= pop
    ensures n == 0 || n == pop - deaths
    ensures n == 0 <==> pop <= deaths
  {
    if pop > deaths then pop - deaths else 0
  }

  /** Steps 2-3: the grid update on a turn whose Sol is `s.day`, logging a blackout
      on single-day batches. */
  function GridPhase(s: Ledger, single: bool): (g: Ledger)
    ensures g == s.(energy := g.energy, logs := g.logs)
    ensures 0.0 <= g.energy <= MaxEnergy
    ensures g.logs == (if single && g.energy == 0.0 then s.logs + [Entry(s.day, Blackout)] else s.logs)
  {
    var energy := ClampEnergy(s.energy + (EnergyProduction(s) - EnergyDrain(s.buildings)));
    var logs := if energy <= 0.0 && single then s.logs + [Entry(s.day, Blackout)] else s.logs;
    s.(energy := energy, logs := logs)
  }

  /** Steps 4-5: oxygen balance with production gated on power, and the death step
      when the air runs out. */
  function LifePhase(g: Ledger, death: int, single: bool): (l: Ledger)
    requires 1 <= death <= 3
    ensures l == g.(oxygen := l.oxygen, pop := l.pop, logs := l.logs)
    ensures l.oxygen >= 0.0
    ensures g.pop - 3 <= l.pop <= g.pop
    ensures l.pop < g.pop ==> l.oxygen == 0.0
  {
    var oxygen := g.oxygen + (OxygenGenerated(g.buildings.scrubber, g.energy > 0.0) - g.pop as real * 2.0);
    if oxygen <= 0.0 then
      var logs := if single then g.logs + [Entry(g.day, Suffocated(death))] else g.logs;
      g.(oxygen := 0.0, pop := Survivors(g.pop, death), logs := logs)
    else
      g.(oxygen := oxygen)
  }

  /** Step 6 under the SELL strategy: this turn's compute is sold at the batch price. */
  function SellPhase(l: Ledger, single: bool): (e: Ledger)
    ensures e == l.(cash := e.cash, logs := e.logs)
    ensures l.btcPrice >= 0.0 ==> e.cash >= l.cash
    ensures l.energy == 0.0 ==> e.cash == l.cash
  {
    var compute := ComputeGenerated(l.buildings.dataCenter, l.scientists, l.energy > 0.0);
    var revenue := Revenue(compute, l.btcPrice, CryptoMult(l.techs));
    l.(cash := l.cash + revenue, logs := if single then l.logs + [Entry(l.day, Sold(revenue))] else l.logs)
  }

  /** One turn ("Sol") of the colony, in the fixed order of the game loop: the Sol
      counter moves first, the loss check comes before the economics. `death` is the
      random draw used if the colony suffocates this turn; `single` is whether the
      batch is one day long (only then are routine events logged). */
  function Turn(s: Ledger, strategy: Strategy, death: int, single: bool): (t: Ledger)
    requires 1 <= death <= 3
    ensures t == s.(day := t.day, cash := t.cash, oxygen := t.oxygen, energy := t.energy,
                    pop := t.pop, logs := t.logs, gameOver := t.gameOver)
    ensures t.day == s.day + 1
    ensures 0.0 <= t.energy <= MaxEnergy
    ensures t.oxygen >= 0.0
    ensures s.logs <= t.logs
  {
    var g := GridPhase(s.(day := s.day + 1), single);
    var l := LifePhase(g, death, single);
    if l.pop == 0 then
      l.(gameOver := true, logs := l.logs + [Entry(l.day, MissionFailed)])
    else if strategy == Sell then
      SellPhase(l, single)
    else
      l
  }

  /** Every random death draw lies in [1, 3]. */
  predicate DeathCounts(deaths: seq<int>) {
    forall i :: 0 <= i < |deaths| ==> 1 <= deaths[i] <= 3
  }

  /** Turns i, i+1, ... of a batch of `days` turns, stopping right after the turn on
      which the population reaches zero. */
  function RunFrom(s: Ledger, days: int, strategy: Strategy, deaths: seq<int>, single: bool, i: nat): (r: Ledger)
    requires days <= |deaths| && DeathCounts(deaths)
    ensures s.day <= r.day
    ensures i < days ==> s.day < r.day
    decreases days - i
  {
    if i >= days then s
    else
      var t := Turn(s, strategy, deaths[i], single);
      if t.pop == 0 then t else RunFrom(t, days, strategy, deaths, single, i + 1)
  }

  /** A batch of `days` turns at market price `price`; nothing at all happens once
      the game is lost or won. */
  function Advance(s: Ledger, days: int, strategy: Strategy, price: real, deaths: seq<int>): (r: Ledger)
    requires days <= |deaths| && DeathCounts(deaths)
    ensures s.gameOver || s.gameWon ==> r == s
    ensures !s.gameOver && !s.gameWon ==> r.btcPrice == price
  {
    if s.gameOver || s.gameWon then s
    else
      RunFromFrame(s.(btcPrice := price), days, strategy, deaths, days == 1, 0);
      RunFrom(s.(btcPrice := price), days, strategy, deaths, days == 1, 0)
  }

  /** Turns change only the day, the resources, the population, the log and the loss flag. */
  lemma {:induction false} RunFromFrame(s: Ledger, days: int, strategy: Strategy, deaths: seq<int>, single: bool, i: nat)
    requires days <= |deaths| && DeathCounts(deaths)
    ensures var r := RunFrom(s, days, strategy, deaths, single, i);
      r == s.(day := r.day, cash := r.cash, oxygen := r.oxygen, energy := r.energy,
              pop := r.pop, logs := r.logs, gameOver := r.gameOver)
    decreases days - i
  {
    if i < days {
      var t := Turn(s, strategy, deaths[i], single);
      if t.pop != 0 {
        RunFromFrame(t, days, strategy, deaths, single, i + 1);
      }
    }
  }

  // ---------------------------------------------------------------------------
  // Player actions
  // ---------------------------------------------------------------------------

  datatype ActionError = NotEnoughLand | InsufficientFunds | PrerequisitesNotMet

  datatype Outcome = Success | Failure(error: ActionError)

  /** Buying a building: refused for lack of land first, then for lack of funds. */
  function Buy(s: Ledger, b: Building): (r: (Ledger, Outcome))
    ensures r.1 == Failure(NotEnoughLand) <==> s.buildings.Total() >= s.landCapacity
    ensures r.1 == Failure(InsufficientFunds) <==>
              s.buildings.Total() < s.landCapacity && s.cash < BuildingCost(b)
    ensures r.1 != Failure(PrerequisitesNotMet)
    ensures r.1.Failure? ==> r.0 == s
    ensures r.1 == Success ==>
              && r.0.cash == s.cash - BuildingCost(b)
              && r.0.buildings.Get(b) == s.buildings.Get(b) + 1
              && (forall o :: o != b ==> r.0.buildings.Get(o) == s.buildings.Get(o))
              && r.0 == s.(cash := r.0.cash, buildings := r.0.buildings)
    ensures s.buildings.Total() <= s.landCapacity ==> r.0.buildings.Total() <= s.landCapacity
  {
    if s.buildings.Total() >= s.landCapacity then (s, Failure(NotEnoughLand))
    else if s.cash >= BuildingCost(b) then
      (s.(cash := s.cash - BuildingCost(b), buildings := s.buildings.Inc(b)), Success)
    else (s, Failure(InsufficientFunds))
  }

  /** Researching a technology: refused for a missing prerequisite first, then for lack
      of funds. An owned technology may be bought again. */
  function Research(s: Ledger, t: Tech): (r: (Ledger, Outcome))
    ensures r.1 == Failure(PrerequisitesNotMet) <==> !Unlockable(t, s.techs)
    ensures r.1 == Failure(InsufficientFunds) <==> Unlockable(t, s.techs) && s.cash < TechCost(t)
    ensures r.1 != Failure(NotEnoughLand)
    ensures r.1.Failure? ==> r.0 == s
    ensures r.1 == Success ==>
              && r.0.cash == s.cash - TechCost(t)
              && r.0.techs == s.techs + [t]
              && r.0 == s.(cash := r.0.cash, techs := r.0.techs, gameWon := r.0.gameWon)
    ensures r.0.gameWon <==> s.gameWon || (r.1 == Success && t == Terraforming)
    ensures s.techs <= r.0.techs
  {
    if !Unlockable(t, s.techs) then (s, Failure(PrerequisitesNotMet))
    else if s.cash >= TechCost(t) then
      var paid := s.(cash := s.cash - TechCost(t), techs := s.techs + [t]);
      (if t == Terraforming then paid.(gameWon := true) else paid, Success)
    else (s, Failure(InsufficientFunds))
  }

  /** The workforce slider: `engineers` engineers, the rest of the colony scientists. */
  function Reassign(s: Ledger, engineers: int): (r: Ledger)
    requires 0 <= engineers <= s.pop
    ensures r.engineers + r.scientists == r.pop == s.pop
    ensures r.engineers == engineers
    ensures r == s.(engineers := r.engineers, scientists := r.scientists)
  {
    s.(engineers := engineers, scientists := s.pop - engineers)
  }

  // ---------------------------------------------------------------------------
  // Sessions: any sequence of player actions
  // ---------------------------------------------------------------------------

  datatype Action =
    | Construct(building: Building)
    | Study(tech: Tech)
    | AssignEngineers(count: int)
    | Sleep(days: int, strategy: Strategy, price: real, deaths: seq<int>)

  /** What the game's inputs guarantee about an action: the slider stays within the
      population, death draws lie in [1, 3] and market prices are non-negative. */
  predicate Admissible(s: Ledger, a: Action) {
    match a
    case Construct(_) => true
    case Study(_) => true
    case AssignEngineers(n) => 0 <= n <= s.pop
    case Sleep(days, _, price, deaths) => days <= |deaths| && DeathCounts(deaths) && price >= 0.0
  }

  function Apply(s: Ledger, a: Action): Ledger
    requires Admissible(s, a)
  {
    match a
    case Construct(b) => Buy(s, b).0
    case Study(t) => Research(s, t).0
    case AssignEngineers(n) => Reassign(s, n)
    case Sleep(days, strategy, price, deaths) => Advance(s, days, strategy, price, deaths)
  }

  /** Every action of the sequence is admissible in the state it is applied to. */
  predicate Playable(s: Ledger, acts: seq<Action>)
    decreases |acts|
  {
    acts == [] || (Admissible(s, acts[0]) && Playable(Apply(s, acts[0]), acts[1..]))
  }

  function Session(s: Ledger, acts: seq<Action>): Ledger
    requires Playable(s, acts)
    decreases |acts|
  {
    if acts == [] then s else Session(Apply(s, acts[0]), acts[1..])
  }
}
